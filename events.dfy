/**
 * The whole controller as one state machine: every handler of the page is an
 * event, and a run of the page is a sequence of events. The lemmas here are
 * about runs: how often the hit-test source is requested, what the reticle
 * can show, and what the animation state keeps.
 */
module Events {
  import opened Wrappers
  import opened Geometry
  import Animation
  import Tracking

  datatype State = State(anim: Animation.AnimState, ar: Tracking.ArState)

  /** Everything that can happen to the page. */
  datatype Event =
    | ModelLoad(clips: seq<Animation.Clip>)                 // the character file has loaded
    | ClipLoad(key: string, clips: seq<Animation.Clip>)     // one of the four clip files has loaded
    | Key(key: string)                                      // a `keydown`
    | Button(name: string)                                  // a click on a HUD button naming a clip
    | Frame(isPresenting: bool, session: Option<Tracking.SessionId>, hasFrame: bool, hits: seq<Transform>)
    | ViewerSpace(sid: Tracking.SessionId)                  // `requestReferenceSpace('viewer')` settles
    | HitTestSourceReady(sid: Tracking.SessionId, src: Tracking.HitTestSource)
    | SessionEnd(sid: Tracking.SessionId)
    | Select                                                // the XR controller's `select`

  function Init(): State
  {
    State(Animation.Init(), Tracking.Init())
  }

  /**
   * Whether event `e` can happen in state `s`, and has a listener if it is an
   * input: a promise settles only after it was started, and once; an ended
   * session neither renders nor ends again; the HUD buttons (and the settings
   * panel) are only wired up by the character file's load callback, whereas
   * the `keydown`, `select` and frame handlers exist from the start.
   */
  predicate Enabled(s: State, e: Event)
  {
    match e
    case ModelLoad(_) => !s.anim.mixerReady
    case ClipLoad(key, _) => key in s.anim.pendingLoads
    case Button(_) => s.anim.mixerReady
    case Frame(_, session, _, _) => session.Some? ==> session.value !in s.ar.ended
    case ViewerSpace(sid) => sid in s.ar.pendingViewerSpace
    case HitTestSourceReady(sid, _) => sid in s.ar.pendingHitTestSource
    case SessionEnd(sid) => sid !in s.ar.ended
    case _ => true
  }

  /** Whether event `e` makes the page ask for the viewer reference space (the first step to a hit-test source). */
  predicate StepIssues(s: State, e: Event)
  {
    e.Frame? && Enabled(s, e) && Tracking.IssuesRequest(s.ar, e.session, e.hasFrame)
  }

  /** Whether event `e` runs the session's `end` listener, which re-arms the request. */
  predicate StepResets(s: State, e: Event)
  {
    e.SessionEnd? && Enabled(s, e) && Tracking.EndResets(s.ar, e.sid)
  }

  /** The effect of one event; an event the environment cannot deliver is ignored. */
  function Step(s: State, e: Event): (r: State)
    ensures !Enabled(s, e) ==> r == s
    ensures StepIssues(s, e) ==> r.ar.requested
    ensures StepResets(s, e) ==> !r.ar.requested
    ensures !StepIssues(s, e) && !StepResets(s, e) ==> r.ar.requested == s.ar.requested
    ensures !e.Frame? && !e.HitTestSourceReady? && !e.SessionEnd? ==> r.ar.reticleVisible == s.ar.reticleVisible
  {
    if !Enabled(s, e) then s
    else
      match e
      case ModelLoad(clips) => s.(anim := Animation.ModelLoaded(s.anim, clips))
      case ClipLoad(key, clips) => s.(anim := Animation.AnimationLoaded(s.anim, key, clips))
      case Key(key) => s.(anim := Animation.KeyDown(s.anim, key))
      case Button(name) => s.(anim := Animation.ChangeAnim(s.anim, name))
      case Frame(isPresenting, session, hasFrame, hits) =>
        s.(ar := Tracking.Render(s.ar, isPresenting, session, hasFrame, hits))
      case ViewerSpace(sid) => s.(ar := Tracking.ViewerSpaceGranted(s.ar, sid))
      case HitTestSourceReady(sid, src) => s.(ar := Tracking.HitTestSourceGranted(s.ar, sid, src))
      case SessionEnd(sid) => s.(ar := Tracking.SessionEnded(s.ar, sid))
      case Select => s.(ar := Tracking.Select(s.ar))
  }

  /** A HUD click before the character file has loaded reaches no listener and changes nothing. */
  lemma ButtonBeforeLoadIgnored(s: State, name: string)
    requires !s.anim.mixerReady
    ensures Step(s, Button(name)) == s
  {
  }

  /** After the load, a HUD click acts as `changeAnim` of the button's clip name. */
  lemma ButtonAfterLoadChanges(s: State, name: string)
    requires s.anim.mixerReady
    ensures Step(s, Button(name)).anim == Animation.ChangeAnim(s.anim, name)
    ensures Step(s, Button(name)).anim.animation == name
  {
  }

  /** A number key works before the load too: it records the name even though nothing is registered yet. */
  lemma KeyBeforeLoadRecordsName(s: State)
    requires !s.anim.mixerReady && s.anim.actions == map[]
    ensures Step(s, Key("3")).anim == s.anim.(animation := "jump")
  {
  }

  /** The state after a sequence of events. */
  function Run(s: State, es: seq<Event>): State
    decreases |es|
  {
    if es == [] then s else Run(Step(s, es[0]), es[1..])
  }

  /** How many times a run asks for the viewer reference space. */
  function Requests(s: State, es: seq<Event>): nat
    decreases |es|
  {
    if es == [] then 0
    else (if StepIssues(s, es[0]) then 1 else 0) + Requests(Step(s, es[0]), es[1..])
  }

  /** How many times a run re-arms the request through an `end` listener. */
  function Resets(s: State, es: seq<Event>): nat
    decreases |es|
  {
    if es == [] then 0
    else (if StepResets(s, es[0]) then 1 else 0) + Resets(Step(s, es[0]), es[1..])
  }

  /**
   * The request is made at most once per arming: over any run, the number of
   * requests is at most the number of re-arms, plus one if the run starts
   * unarmed. In particular a run without a session end requests at most once.
   */
  lemma {:induction false} RequestsBounded(s: State, es: seq<Event>)
    ensures Requests(s, es) <= (if s.ar.requested then 0 else 1) + Resets(s, es)
    decreases |es|
  {
    if es != [] {
      RequestsBounded(Step(s, es[0]), es[1..]);
    }
  }

  /** From a fresh page, the number of requests never exceeds one more than the number of re-arms. */
  lemma RequestsFromStart(es: seq<Event>)
    ensures Requests(Init(), es) <= 1 + Resets(Init(), es)
  {
    RequestsBounded(Init(), es);
  }

  /** Once requested, frames alone never ask again. */
  lemma {:induction false} FramesNeverReRequest(s: State, es: seq<Event>)
    requires s.ar.requested
    requires forall i :: 0 <= i < |es| ==> !es[i].SessionEnd?
    ensures Requests(s, es) == 0
    ensures Run(s, es).ar.requested
    decreases |es|
  {
    if es != [] {
      var s' := Step(s, es[0]);
      assert !StepIssues(s, es[0]) && !StepResets(s, es[0]);
      FramesNeverReRequest(s', es[1..]);
    }
  }

  /**
   * The request flag is set and no live session holds a pending
   * reference-space request or an `end` listener: nothing can ever re-arm it.
   */
  predicate Stuck(a: Tracking.ArState)
  {
    a.requested && a.pendingViewerSpace <= a.ended && a.endListeners <= a.ended
  }

  /** A stuck page stays stuck and never asks for a hit-test source again, whatever happens. */
  lemma {:induction false} StuckForever(s: State, es: seq<Event>)
    requires Stuck(s.ar)
    ensures Stuck(Run(s, es).ar)
    ensures Requests(s, es) == 0 && Resets(s, es) == 0
    decreases |es|
  {
    if es != [] {
      var e := es[0];
      var s' := Step(s, e);
      assert !StepIssues(s, e) && !StepResets(s, e);
      assert Stuck(s'.ar);
      StuckForever(s', es[1..]);
    }
  }

  /**
   * The `end` listener is only registered once the viewer space arrives. A
   * session that ends before that leaves the page stuck: no later session
   * ever gets a hit-test source.
   */
  lemma EndBeforeViewerSpace(later: seq<Event>)
    ensures var s := Run(Init(), [Frame(true, Some(0), true, []), SessionEnd(0)]);
            Stuck(s.ar) && Requests(s, later) == 0
  {
    var s := Run(Init(), [Frame(true, Some(0), true, []), SessionEnd(0)]);
    StuckForever(s, later);
  }

  /**
   * A hit-test source that arrives after its session ended is still stored:
   * the page then holds a source while it is re-armed to request a new one.
   */
  lemma StaleSourceAfterEnd(src: Tracking.HitTestSource)
    ensures var s := Run(Init(), [Frame(true, Some(0), true, []), ViewerSpace(0), SessionEnd(0),
                                  HitTestSourceReady(0, src)]);
            !s.ar.requested && s.ar.source == Some(src) && 0 in s.ar.ended
  {
    var es := [Frame(true, Some(0), true, []), ViewerSpace(0), SessionEnd(0), HitTestSourceReady(0, src)];
    var s1 := Step(Init(), es[0]);
    var s2 := Step(s1, es[1]);
    var s3 := Step(s2, es[2]);
    var s4 := Step(s3, es[3]);
    assert 0 in s1.ar.pendingViewerSpace;
    assert 0 in s2.ar.endListeners && 0 in s2.ar.pendingHitTestSource;
    assert !s3.ar.requested && 0 in s3.ar.pendingHitTestSource;
    assert Run(s4, es[4..]) == s4;
    assert Run(Init(), es) == Run(s1, es[1..]) == Run(s2, es[2..]) == Run(s3, es[3..]) == Run(s4, es[4..]);
  }

  /**
   * After an `end` listener re-arms the page, the first frame of the next
   * session asks for the viewer space again, exactly once.
   */
  lemma NextSessionRequestsOnce(s: State, sid: Tracking.SessionId, next: Tracking.SessionId, hits: seq<Transform>)
    requires sid in s.ar.endListeners && sid !in s.ar.ended
    requires next != sid && next !in s.ar.ended
    ensures Requests(s, [SessionEnd(sid), Frame(true, Some(next), true, hits)]) == 1
    ensures Run(s, [SessionEnd(sid), Frame(true, Some(next), true, hits)]).ar.pendingViewerSpace
         == s.ar.pendingViewerSpace + {next}
  {
    var es := [SessionEnd(sid), Frame(true, Some(next), true, hits)];
    var s1 := Step(s, es[0]);
    assert !s1.ar.requested && next !in s1.ar.ended;
    assert StepIssues(s1, es[1]);
    var s2 := Step(s1, es[1]);
    assert Requests(s2, es[2..]) == 0 && Run(s2, es[2..]) == s2;
    assert Requests(s, es) == Requests(s1, es[1..]) + 0;
    assert Run(s, es) == Run(s1, es[1..]) == Run(s2, es[2..]);
  }

  /** The reticle is never visible while the page holds no hit-test source. */
  predicate ReticleNeedsSource(a: Tracking.ArState)
  {
    a.source.None? ==> !a.reticleVisible
  }

  lemma {:induction false} ReticleNeedsSourceKept(s: State, es: seq<Event>)
    requires ReticleNeedsSource(s.ar)
    ensures ReticleNeedsSource(Run(s, es).ar)
    decreases |es|
  {
    if es != [] {
      ReticleNeedsSourceKept(Step(s, es[0]), es[1..]);
    }
  }

  /** So, from a fresh page, a select before any source arrived never moves `arRoot`. */
  lemma SelectWithoutSourceKeepsRoot(es: seq<Event>)
    ensures var s := Run(Init(), es);
            s.ar.source.None? ==> Step(s, Select) == s
  {
    ReticleNeedsSourceKept(Init(), es);
  }

  /** Any number of consecutive selects place `arRoot` as one select does. */
  lemma {:induction false} RepeatedSelects(s: State, n: nat)
    requires n >= 1
    ensures Run(s, seq(n, _ => Select)) == Step(s, Select)
    decreases n
  {
    var es: seq<Event> := seq(n, _ => Select);
    assert es[0] == Select;
    if n > 1 {
      var rest: seq<Event> := seq(n - 1, _ => Select);
      assert es[1..] == rest;
      RepeatedSelects(Step(s, Select), n - 1);
      Tracking.SelectIdempotent(s.ar);
    } else {
      assert es[1..] == [];
    }
  }

  /** The animation invariant holds along every run from a fresh page. */
  lemma {:induction false} AnimationValidKept(s: State, es: seq<Event>)
    requires Animation.Valid(s.anim)
    ensures Animation.Valid(Run(s, es).anim)
    decreases |es|
  {
    if es != [] {
      var e := es[0];
      if Enabled(s, e) {
        match e
        case ModelLoad(clips) => Animation.ModelLoadedValid(s.anim, clips);
        case ClipLoad(key, clips) => Animation.AnimationLoadedValid(s.anim, key, clips);
        case Key(key) =>
          if Animation.KeyClip(key).Some? { Animation.FadeToValid(s.anim, Animation.KeyClip(key).value); }
        case Button(name) => Animation.FadeToValid(s.anim, name);
        case _ =>
      }
      AnimationValidKept(Step(s, e), es[1..]);
    }
  }

  /** In particular the active action is always a registered one, and every fade lasts `FadeDuration`. */
  lemma ActiveIsRegistered(es: seq<Event>)
    ensures var a := Run(Init(), es).anim;
            && (a.active.Some? ==> a.active.value in a.actions.Values)
            && (forall i :: 0 <= i < |a.calls| ==> Animation.FadeLength(a.calls[i]))
  {
    Animation.InitValid();
    AnimationValidKept(Init(), es);
  }
}
