/**
 * AR hit-testing, reticle tracking and placement: the per-frame part of
 * `render`, the two WebXR promises it starts, the session's `end` listener,
 * and the controller's `select` handler.
 *
 * The promises become explicit completion events. A session is named by a
 * number; `ended` remembers which sessions have ended, and the two `pending`
 * sets which promises were started and have not yet settled. These three sets
 * only say which events the platform can still deliver; they are not state
 * the page keeps.
 */
module Tracking {
  import opened Wrappers
  import opened Geometry

  type SessionId = nat

  /** An `XRHitTestSource`; only its identity matters. */
  datatype HitTestSource = HitTestSource(id: nat)

  /**
   * requested           -- `hitTestSourceRequested`
   * source              -- `hitTestSource`
   * reticleVisible      -- `reticle.visible`
   * reticle             -- `reticle.matrix`
   * groundVisible       -- `ground.visible`
   * rootPosition        -- `arRoot.position`
   * rootOrientation     -- `arRoot.quaternion`
   * endListeners        -- the sessions on which the `end` listener has been registered
   * pendingViewerSpace  -- sessions whose `requestReferenceSpace('viewer')` has not settled
   * pendingHitTestSource -- sessions whose `requestHitTestSource` has not settled
   * ended               -- sessions that have ended
   */
  datatype ArState = ArState(
    requested: bool,
    source: Option<HitTestSource>,
    reticleVisible: bool,
    reticle: Transform,
    groundVisible: bool,
    rootPosition: Vector3,
    rootOrientation: Quaternion,
    endListeners: set<SessionId>,
    pendingViewerSpace: set<SessionId>,
    pendingHitTestSource: set<SessionId>,
    ended: set<SessionId>)

  /** The state once the scene is built: nothing requested, the reticle hidden, the ground shown, `arRoot` at the origin. */
  function Init(): (s: ArState)
    ensures !s.requested && s.source == None && !s.reticleVisible && s.groundVisible
    ensures s.rootPosition == Origin && s.rootOrientation == IdentityRotation
    ensures s.endListeners == {} && s.pendingViewerSpace == {} && s.pendingHitTestSource == {} && s.ended == {}
  {
    ArState(false, None, false, Identity, true, Origin, IdentityRotation, {}, {}, {}, {})
  }

  /** Whether a frame runs the AR part of `render`: there is an XR frame and a session. */
  predicate InSession(session: Option<SessionId>, hasFrame: bool)
  {
    hasFrame && session.Some?
  }

  /** Whether a frame asks for the viewer reference space: it is in a session and nothing was asked yet. */
  predicate IssuesRequest(s: ArState, session: Option<SessionId>, hasFrame: bool)
  {
    InSession(session, hasFrame) && !s.requested
  }

  /** Whether a frame samples the hit-test source. */
  predicate Samples(s: ArState, session: Option<SessionId>, hasFrame: bool)
  {
    InSession(session, hasFrame) && s.source.Some?
  }

  /**
   * One call of `render(timestamp, frame)`. `isPresenting` is
   * `renderer.xr.isPresenting`, `session` the current XR session (if any),
   * `hasFrame` whether an XR frame was passed, and `hits` the poses of
   * `frame.getHitTestResults(hitTestSource)`, nearest first.
   */
  function Render(s: ArState, isPresenting: bool, session: Option<SessionId>, hasFrame: bool,
                  hits: seq<Transform>): (r: ArState)
    requires session.Some? ==> session.value !in s.ended
    // the ground is shown exactly outside an immersive session, on every frame
    ensures r.groundVisible == !isPresenting
    // the request is made at most once: only when none was made, and afterwards one is recorded
    ensures r.requested == (s.requested || InSession(session, hasFrame))
    ensures r.pendingViewerSpace
         == s.pendingViewerSpace + (if IssuesRequest(s, session, hasFrame) then {session.value} else {})
    // with a source, the reticle shows exactly when there is a hit, at the first hit
    ensures Samples(s, session, hasFrame) ==> (r.reticleVisible <==> |hits| > 0)
    ensures Samples(s, session, hasFrame) && |hits| > 0 ==> r.reticle == hits[0]
    ensures Samples(s, session, hasFrame) && |hits| == 0 ==> r.reticle == s.reticle
    // without one, the reticle keeps its state
    ensures !Samples(s, session, hasFrame) ==> r.reticleVisible == s.reticleVisible && r.reticle == s.reticle
    ensures r.source == s.source && r.endListeners == s.endListeners
    ensures r.pendingHitTestSource == s.pendingHitTestSource && r.ended == s.ended
    ensures r.rootPosition == s.rootPosition && r.rootOrientation == s.rootOrientation
  {
    var shown := s.(groundVisible := !isPresenting);
    if !InSession(session, hasFrame) then
      shown
    else
      var asked :=
        if !s.requested
        then shown.(requested := true, pendingViewerSpace := shown.pendingViewerSpace + {session.value})
        else shown;
      if s.source.None? then
        asked
      else if |hits| > 0 then
        asked.(reticleVisible := true, reticle := hits[0])
      else
        asked.(reticleVisible := false)
  }

  /**
   * The viewer reference space of session `sid` has been granted: the
   * hit-test source is requested from that session and the `end` listener is
   * registered on it.
   */
  function ViewerSpaceGranted(s: ArState, sid: SessionId): (r: ArState)
    requires sid in s.pendingViewerSpace
    ensures sid in r.endListeners && sid in r.pendingHitTestSource && sid !in r.pendingViewerSpace
    ensures r.endListeners == s.endListeners + {sid}
    ensures r.pendingHitTestSource == s.pendingHitTestSource + {sid}
    ensures r.pendingViewerSpace == s.pendingViewerSpace - {sid}
    ensures r.(endListeners := s.endListeners, pendingHitTestSource := s.pendingHitTestSource,
               pendingViewerSpace := s.pendingViewerSpace) == s
  {
    s.(pendingHitTestSource := s.pendingHitTestSource + {sid},
       endListeners := s.endListeners + {sid},
       pendingViewerSpace := s.pendingViewerSpace - {sid})
  }

  /**
   * The hit-test source requested from session `sid` has arrived. It is
   * stored whether or not that session is still running.
   */
  function HitTestSourceGranted(s: ArState, sid: SessionId, src: HitTestSource): (r: ArState)
    requires sid in s.pendingHitTestSource
    ensures r.source == Some(src)
    ensures r.pendingHitTestSource == s.pendingHitTestSource - {sid}
    ensures r.(source := s.source, pendingHitTestSource := s.pendingHitTestSource) == s
  {
    s.(source := Some(src), pendingHitTestSource := s.pendingHitTestSource - {sid})
  }

  /** Whether the end of session `sid` runs the `end` listener. */
  predicate EndResets(s: ArState, sid: SessionId)
  {
    sid in s.endListeners
  }

  /**
   * Session `sid` ends. If its `end` listener was registered, the request is
   * re-armed, the source dropped, the reticle hidden and the ground shown;
   * otherwise nothing of the page's state changes.
   */
  function SessionEnded(s: ArState, sid: SessionId): (r: ArState)
    requires sid !in s.ended
    ensures r.ended == s.ended + {sid}
    ensures EndResets(s, sid) ==> !r.requested && r.source == None && !r.reticleVisible && r.groundVisible
    ensures !EndResets(s, sid) ==> r == s.(ended := r.ended)
    ensures r.reticle == s.reticle && r.rootPosition == s.rootPosition && r.rootOrientation == s.rootOrientation
    ensures r.endListeners == s.endListeners && r.pendingViewerSpace == s.pendingViewerSpace
    ensures r.pendingHitTestSource == s.pendingHitTestSource
  {
    var cleared :=
      if EndResets(s, sid)
      then s.(requested := false, source := None, reticleVisible := false, groundVisible := true)
      else s;
    cleared.(ended := s.ended + {sid})
  }

  /**
   * `onSelect`: when the reticle is visible, `arRoot` takes the position and
   * the orientation of the reticle's transform (its scale is dropped);
   * otherwise nothing changes.
   */
  function Select(s: ArState): (r: ArState)
    ensures s.reticleVisible ==> r.rootPosition == s.reticle.position && r.rootOrientation == s.reticle.orientation
    ensures !s.reticleVisible ==> r == s
    ensures r.(rootPosition := s.rootPosition, rootOrientation := s.rootOrientation) == s
  {
    if s.reticleVisible
    then s.(rootPosition := s.reticle.position, rootOrientation := s.reticle.orientation)
    else s
  }

  /** Selecting twice places `arRoot` where selecting once does. */
  lemma SelectIdempotent(s: ArState)
    ensures Select(Select(s)) == Select(s)
  {
  }
}
