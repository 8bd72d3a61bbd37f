/**
 * Animation-clip switching: the `actions` dictionary, the active action, the
 * `params.animation` setting, and the calls made on the three.js animation
 * actions. Blending itself belongs to three.js's `AnimationMixer`; here only
 * which action is active and which fades were requested are recorded.
 */
module Animation {
  import opened Wrappers

  /** An animation clip taken from a loaded FBX file; only its identity matters. */
  datatype Clip = Clip(id: nat)

  /**
   * An `AnimationAction`. `mixer.clipAction(clip)` hands back the same action
   * object for the same clip, so an action is identified by its clip and the
   * source's reference comparison `!==` is inequality of these values.
   */
  datatype Action = Action(clip: Clip)

  /** One call made on an action: `play()`, `reset()`, `fadeIn(d)`, `fadeOut(d)`. */
  datatype MixerCall =
    | Play(action: Action)
    | Reset(action: Action)
    | FadeIn(action: Action, duration: real)
    | FadeOut(action: Action, duration: real)

  /** The cross-fade duration, in seconds, that every switch asks for. */
  const FadeDuration: real := 0.5

  /** The clip name the character's own FBX file is registered under. */
  const InitialClip: string := "mutant"

  /** The names of the four clips loaded from separate files once the character is in. */
  const LoadedClips: set<string> := {"goalkeeper", "jump", "pray", "clap"}

  /** The clips in the order of the number keys that select them. */
  const KeyedClips: seq<string> := [InitialClip, "goalkeeper", "jump", "pray", "clap"]

  /**
   * The animation part of the controller's state.
   * mixerReady   -- `mixer` has been created (the character file has loaded)
   * actions      -- the `actions` dictionary
   * active       -- `activeAction`, undefined before the first registration
   * animation    -- `params.animation`, the name shown by the settings panel
   * calls        -- every call made on an action, oldest first
   * pendingLoads -- clip names whose separate file load was started and has not completed
   */
  datatype AnimState = AnimState(
    mixerReady: bool,
    actions: map<string, Action>,
    active: Option<Action>,
    animation: string,
    calls: seq<MixerCall>,
    pendingLoads: set<string>)

  /** The state when the page starts. */
  function Init(): (s: AnimState)
    ensures !s.mixerReady && s.actions == map[] && s.active == None && s.calls == []
    ensures s.animation == InitialClip && s.pendingLoads == {}
  {
    AnimState(false, map[], None, InitialClip, [], {})
  }

  /**
   * The character file has loaded: the mixer is created; if the file carries an
   * animation, its first clip is registered as `mutant`, made active and played;
   * then the four other clip files are requested.
   */
  function ModelLoaded(s: AnimState, clips: seq<Clip>): (r: AnimState)
    ensures r.mixerReady && r.animation == s.animation
    ensures r.pendingLoads == s.pendingLoads + LoadedClips
    ensures |clips| > 0 ==>
              && r.actions == s.actions[InitialClip := Action(clips[0])]
              && r.active == Some(Action(clips[0]))
              && r.calls == s.calls + [Play(Action(clips[0]))]
    ensures |clips| == 0 ==> r.actions == s.actions && r.active == s.active && r.calls == s.calls
  {
    var started := s.(mixerReady := true, pendingLoads := s.pendingLoads + LoadedClips);
    if |clips| > 0 then
      var action := Action(clips[0]);
      started.(actions := started.actions[InitialClip := action],
               active := Some(action),
               calls := started.calls + [Play(action)])
    else
      started
  }

  /**
   * The file for clip name `key` has loaded: its first clip, if it has one,
   * is registered under `key`, replacing any earlier entry. Nothing is played.
   */
  function AnimationLoaded(s: AnimState, key: string, clips: seq<Clip>): (r: AnimState)
    ensures r.actions.Keys == s.actions.Keys + (if |clips| > 0 then {key} else {})
    ensures |clips| > 0 ==> r.actions[key] == Action(clips[0])
    ensures forall k :: k in s.actions && k != key ==> r.actions[k] == s.actions[k]
    ensures |clips| == 0 ==> r.actions == s.actions
    ensures r.pendingLoads == s.pendingLoads - {key}
    ensures r.active == s.active && r.calls == s.calls
    ensures r.animation == s.animation && r.mixerReady == s.mixerReady
  {
    var done := s.(pendingLoads := s.pendingLoads - {key});
    if |clips| > 0 then done.(actions := done.actions[key := Action(clips[0])]) else done
  }

  /** Whether `fadeToAction(name)` switches: the name is registered to an action that is not the active one. */
  predicate Switches(s: AnimState, name: string)
  {
    name in s.actions && s.active != Some(s.actions[name])
  }

  /** The calls a switch from `from` to `to` makes: fade the old action out, then reset, fade in and play the new one. */
  function SwitchCalls(from: Option<Action>, to: Action): (c: seq<MixerCall>)
    ensures |c| == if from.Some? then 4 else 3
    ensures c[|c| - 1] == Play(to)
    ensures FadeIn(to, FadeDuration) in c
    ensures from.Some? ==> c[0] == FadeOut(from.value, FadeDuration)
    ensures c[|c| - 3] == Reset(to) && c[|c| - 2] == FadeIn(to, FadeDuration)
  {
    (if from.Some? then [FadeOut(from.value, FadeDuration)] else [])
    + [Reset(to), FadeIn(to, FadeDuration), Play(to)]
  }

  /** `fadeToAction(name)`. */
  function FadeTo(s: AnimState, name: string): (r: AnimState)
    ensures r.active != s.active <==> Switches(s, name)
    ensures Switches(s, name) ==> r.active == Some(s.actions[name])
    ensures !Switches(s, name) ==> r == s
    ensures r.calls == s.calls + (if Switches(s, name) then SwitchCalls(s.active, s.actions[name]) else [])
    ensures r.actions == s.actions && r.animation == s.animation
    ensures r.mixerReady == s.mixerReady && r.pendingLoads == s.pendingLoads
  {
    if Switches(s, name) then
      var next := s.actions[name];
      s.(active := Some(next), calls := s.calls + SwitchCalls(s.active, next))
    else
      s
  }

  /** `changeAnim(name)`: switch as `fadeToAction` does, and record the name in the settings whether or not it switched. */
  function ChangeAnim(s: AnimState, name: string): (r: AnimState)
    ensures r.animation == name
    ensures r.active == FadeTo(s, name).active && r.calls == FadeTo(s, name).calls
    ensures r.(animation := s.animation) == FadeTo(s, name)
  {
    FadeTo(s, name).(animation := name)
  }

  /** The character a number key `i + 1` produces, for `i` in 0..4. */
  function DigitKey(i: nat): string
    requires i < 9
  {
    [(('1' as int) + i) as char]
  }

  /** The clip a key selects: `1` to `5` pick the clips of `KeyedClips` in order; any other key picks none. */
  function KeyClip(key: string): (r: Option<string>)
    ensures r.Some? <==> key in {"1", "2", "3", "4", "5"}
    ensures forall i :: 0 <= i < |KeyedClips| ==> (r == Some(KeyedClips[i]) <==> key == DigitKey(i))
  {
    if key == "1" then Some(InitialClip)
    else if key == "2" then Some("goalkeeper")
    else if key == "3" then Some("jump")
    else if key == "4" then Some("pray")
    else if key == "5" then Some("clap")
    else None
  }

  /** The `keydown` listener. */
  function KeyDown(s: AnimState, key: string): (r: AnimState)
    ensures KeyClip(key).None? ==> r == s
    ensures KeyClip(key).Some? ==> r == ChangeAnim(s, KeyClip(key).value)
  {
    match KeyClip(key)
    case Some(name) => ChangeAnim(s, name)
    case None => s
  }

  /** A later load under the same name replaces the earlier action. */
  lemma LaterLoadReplaces(s: AnimState, key: string, first: seq<Clip>, second: seq<Clip>)
    requires |second| > 0
    ensures AnimationLoaded(AnimationLoaded(s, key, first), key, second).actions
         == AnimationLoaded(s, key, second).actions
  {
  }

  /** A switch is idempotent: asking again for the clip just switched to does nothing more. */
  lemma FadeToIdempotent(s: AnimState, name: string)
    ensures FadeTo(FadeTo(s, name), name) == FadeTo(s, name)
  {
  }

  /** The most recent request wins: after two switches the second target is active, whatever the first was. */
  lemma LastRequestWins(s: AnimState, first: string, second: string)
    requires second in s.actions
    ensures var r := FadeTo(FadeTo(s, first), second);
            r.active == Some(s.actions[second])
  {
  }

  /**
   * The invariant the controller keeps over the animation state:
   * - before the mixer exists nothing is registered, active or pending;
   * - an active action is one of the registered actions;
   * - clips still loading are not yet registered, and the character's own clip is never reloaded;
   * - every fade asks for `FadeDuration`;
   * - an action is active exactly when some call was made, and the last call played the active action.
   */
  ghost predicate Valid(s: AnimState)
  {
    && (!s.mixerReady ==> s.actions == map[] && s.active == None && s.pendingLoads == {})
    && (s.active.Some? ==> s.active.value in s.actions.Values)
    && s.pendingLoads !! s.actions.Keys
    && InitialClip !in s.pendingLoads
    && (forall i :: 0 <= i < |s.calls| ==> FadeLength(s.calls[i]))
    && (s.active.Some? <==> s.calls != [])
    && (s.active.Some? ==> s.calls[|s.calls| - 1] == Play(s.active.value))
  }

  /** A fade call asks for the standard duration; other calls have none. */
  predicate FadeLength(c: MixerCall)
  {
    (c.FadeIn? || c.FadeOut?) ==> c.duration == FadeDuration
  }

  lemma InitValid()
    ensures Valid(Init())
  {
  }

  lemma ModelLoadedValid(s: AnimState, clips: seq<Clip>)
    requires Valid(s) && !s.mixerReady
    ensures Valid(ModelLoaded(s, clips))
  {
    var r := ModelLoaded(s, clips);
    if |clips| > 0 {
      assert r.actions[InitialClip] == Action(clips[0]);
    }
  }

  lemma AnimationLoadedValid(s: AnimState, key: string, clips: seq<Clip>)
    requires Valid(s) && key in s.pendingLoads
    ensures Valid(AnimationLoaded(s, key, clips))
  {
  }

  lemma FadeToValid(s: AnimState, name: string)
    requires Valid(s)
    ensures Valid(FadeTo(s, name))
  {
  }
}
