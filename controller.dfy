/**
 * The page's module-level state and its handlers, written the way the page
 * writes them: fields that each handler updates in place. Every handler is
 * proved against the matching transition of `Animation` or `Tracking`, and
 * leaves the other half of the state as it was.
 */
module Controller {
  import opened Wrappers
  import opened Geometry
  import Animation
  import Tracking

  class SceneController {
    // animation clips
    var mixerReady: bool
    var actions: map<string, Animation.Action>
    var activeAction: Option<Animation.Action>
    var animation: string                       // `params.animation`
    var mixerCalls: seq<Animation.MixerCall>    // the calls made on the actions, oldest first
    ghost var pendingLoads: set<string>

    // AR hit-testing and placement
    var hitTestSourceRequested: bool
    var hitTestSource: Option<Tracking.HitTestSource>
    var reticleVisible: bool
    var reticleMatrix: Transform
    var groundVisible: bool
    var rootPosition: Vector3                   // `arRoot.position`
    var rootQuaternion: Quaternion              // `arRoot.quaternion`
    var endListeners: set<Tracking.SessionId>   // sessions carrying the `end` listener
    ghost var pendingViewerSpace: set<Tracking.SessionId>
    ghost var pendingHitTestSource: set<Tracking.SessionId>
    ghost var ended: set<Tracking.SessionId>

    /** The animation half of the state, as a value. */
    ghost function Anim(): Animation.AnimState
      reads this
    {
      Animation.AnimState(mixerReady, actions, activeAction, animation, mixerCalls, pendingLoads)
    }

    /** The AR half of the state, as a value. */
    ghost function Ar(): Tracking.ArState
      reads this
    {
      Tracking.ArState(hitTestSourceRequested, hitTestSource, reticleVisible, reticleMatrix, groundVisible,
                       rootPosition, rootQuaternion, endListeners, pendingViewerSpace, pendingHitTestSource, ended)
    }

    /** The page as `init()` leaves it, before any file has loaded. */
    constructor ()
      ensures Anim() == Animation.Init() && Ar() == Tracking.Init()
      ensures Animation.Valid(Anim())
    {
      mixerReady, actions, activeAction := false, map[], None;
      animation, mixerCalls := Animation.InitialClip, [];
      pendingLoads := {};
      hitTestSourceRequested, hitTestSource := false, None;
      reticleVisible, reticleMatrix := false, Identity;
      groundVisible := true;
      rootPosition, rootQuaternion := Origin, IdentityRotation;
      endListeners := {};
      pendingViewerSpace, pendingHitTestSource, ended := {}, {}, {};
    }

    /** The callback of the character file's load, given the file's animation clips. */
    method OnModelLoaded(clips: seq<Animation.Clip>)
      requires !mixerReady
      modifies this
      ensures Anim() == Animation.ModelLoaded(old(Anim()), clips)
      ensures Ar() == old(Ar())
      ensures Animation.Valid(old(Anim())) ==> Animation.Valid(Anim())
    {
      ghost var before := Anim();
      mixerReady := true;
      if |clips| > 0 {
        var action := Animation.Action(clips[0]);
        actions := actions[Animation.InitialClip := action];
        activeAction := Some(action);
        mixerCalls := mixerCalls + [Animation.Play(action)];
      }
      pendingLoads := pendingLoads + Animation.LoadedClips;
      if Animation.Valid(before) {
        Animation.ModelLoadedValid(before, clips);
      }
    }

    /** `loadAnimation`'s callback for the file of clip name `key`. */
    method OnAnimationLoaded(key: string, clips: seq<Animation.Clip>)
      requires key in pendingLoads
      modifies this
      ensures Anim() == Animation.AnimationLoaded(old(Anim()), key, clips)
      ensures Ar() == old(Ar())
      ensures Animation.Valid(old(Anim())) ==> Animation.Valid(Anim())
    {
      ghost var before := Anim();
      if |clips| > 0 {
        actions := actions[key := Animation.Action(clips[0])];
      }
      pendingLoads := pendingLoads - {key};
      if Animation.Valid(before) {
        Animation.AnimationLoadedValid(before, key, clips);
      }
    }

    /** `fadeToAction(name)`. */
    method FadeToAction(name: string)
      modifies this
      ensures Anim() == Animation.FadeTo(old(Anim()), name)
      ensures Ar() == old(Ar())
      ensures name in actions ==> activeAction == Some(actions[name])
      ensures Animation.Valid(old(Anim())) ==> Animation.Valid(Anim())
    {
      ghost var before := Anim();
      if name in actions && activeAction != Some(actions[name]) {
        var next := actions[name];
        if activeAction.Some? {
          mixerCalls := mixerCalls + [Animation.FadeOut(activeAction.value, Animation.FadeDuration)];
        }
        mixerCalls := mixerCalls + [Animation.Reset(next), Animation.FadeIn(next, Animation.FadeDuration),
                                    Animation.Play(next)];
        activeAction := Some(next);
      }
      if Animation.Valid(before) {
        Animation.FadeToValid(before, name);
      }
    }

    /** `changeAnim(name)`. */
    method ChangeAnim(name: string)
      modifies this
      ensures Anim() == Animation.ChangeAnim(old(Anim()), name)
      ensures Ar() == old(Ar())
      ensures animation == name
      ensures Animation.Valid(old(Anim())) ==> Animation.Valid(Anim())
    {
      FadeToAction(name);
      animation := name;
    }

    /** The `keydown` listener. */
    method KeyDown(key: string)
      modifies this
      ensures Anim() == Animation.KeyDown(old(Anim()), key)
      ensures Ar() == old(Ar())
      ensures Animation.KeyClip(key).None? ==> Anim() == old(Anim())
      ensures Animation.Valid(old(Anim())) ==> Animation.Valid(Anim())
    {
      var clip := Animation.KeyClip(key);
      if clip.Some? {
        ChangeAnim(clip.value);
      }
    }

    /** The AR part of `render(timestamp, frame)`; see `Tracking.Render` for the parameters. */
    method RenderFrame(isPresenting: bool, session: Option<Tracking.SessionId>, hasFrame: bool,
                       hits: seq<Transform>)
      requires session.Some? ==> session.value !in ended
      modifies this
      ensures Ar() == Tracking.Render(old(Ar()), isPresenting, session, hasFrame, hits)
      ensures Anim() == old(Anim())
      ensures groundVisible == !isPresenting
      ensures old(hitTestSource).Some? && hasFrame && session.Some? ==> (reticleVisible <==> |hits| > 0)
    {
      groundVisible := !isPresenting;
      if hasFrame && session.Some? {
        if !hitTestSourceRequested {
          pendingViewerSpace := pendingViewerSpace + {session.value};
          hitTestSourceRequested := true;
        }
        if hitTestSource.Some? {
          if |hits| > 0 {
            reticleVisible := true;
            reticleMatrix := hits[0];
          } else {
            reticleVisible := false;
          }
        }
      }
    }

    /** The callback of `requestReferenceSpace('viewer')` for session `sid`. */
    method OnViewerSpace(sid: Tracking.SessionId)
      requires sid in pendingViewerSpace
      modifies this
      ensures Ar() == Tracking.ViewerSpaceGranted(old(Ar()), sid)
      ensures Anim() == old(Anim())
    {
      pendingViewerSpace := pendingViewerSpace - {sid};
      pendingHitTestSource := pendingHitTestSource + {sid};
      endListeners := endListeners + {sid};
    }

    /** The callback of `requestHitTestSource` for session `sid`. */
    method OnHitTestSource(sid: Tracking.SessionId, src: Tracking.HitTestSource)
      requires sid in pendingHitTestSource
      modifies this
      ensures Ar() == Tracking.HitTestSourceGranted(old(Ar()), sid, src)
      ensures Anim() == old(Anim())
      ensures hitTestSource == Some(src)
    {
      pendingHitTestSource := pendingHitTestSource - {sid};
      hitTestSource := Some(src);
    }

    /** Session `sid` ends, running its `end` listener if one was registered. */
    method OnSessionEnd(sid: Tracking.SessionId)
      requires sid !in ended
      modifies this
      ensures Ar() == Tracking.SessionEnded(old(Ar()), sid)
      ensures Anim() == old(Anim())
    {
      if sid in endListeners {
        hitTestSourceRequested := false;
        hitTestSource := None;
        reticleVisible := false;
        groundVisible := true;
      }
      ended := ended + {sid};
    }

    /** `onSelect`. */
    method OnSelect()
      modifies this
      ensures Ar() == Tracking.Select(old(Ar()))
      ensures Anim() == old(Anim())
      ensures old(reticleVisible) ==> rootPosition == reticleMatrix.position && rootQuaternion == reticleMatrix.orientation
    {
      if reticleVisible {
        rootPosition := reticleMatrix.position;
        rootQuaternion := reticleMatrix.orientation;
      }
    }
  }
}
