/**
 * The two animation actions, the cross-fade guard and the per-frame policy
 * that picks between them. The mixer's weight ramps are not modelled: an
 * action is identified by its name, and `current` is the `currentAction` global.
 */
module Animation {
  import opened Options

  datatype Action = Idle | Run

  /**
   * `currentAction` after `crossFadeTo(target)`: the target becomes current
   * when both it and the current action exist; otherwise nothing changes.
   */
  function CrossFaded(current: Option<Action>, target: Option<Action>): (r: Option<Action>)
    ensures current.None? || target.None? ==> r == current
    ensures current.Some? && target.Some? ==> r == target
  {
    if target.None? || current.None? || target == current then current else target
  }

  /** Fading to the action that is already current is a no-op. */
  lemma CrossFadeToCurrentIsNoOp(current: Option<Action>)
    ensures CrossFaded(current, current) == current
  {
  }

  /** A second fade to the same target changes nothing more. */
  lemma CrossFadeIdempotent(current: Option<Action>, target: Option<Action>)
    ensures CrossFaded(CrossFaded(current, target), target) == CrossFaded(current, target)
  {
  }

  /**
   * The frame policy: while `w` or `s` is held, fade to run if it has loaded;
   * otherwise fade to idle if it has loaded.
   */
  function SelectAction(current: Option<Action>, idleLoaded: bool, runLoaded: bool, moving: bool): (r: Option<Action>)
    ensures moving && runLoaded && current.Some? ==> r == Some(Run)
    ensures !moving && idleLoaded && current.Some? ==> r == Some(Idle)
    ensures moving && !runLoaded ==> r == current
    ensures !moving && !idleLoaded ==> r == current
    ensures r.Some? <==> current.Some?
  {
    if moving then
      if runLoaded && current != Some(Run) then CrossFaded(current, Some(Run)) else current
    else
      if idleLoaded && current != Some(Idle) then CrossFaded(current, Some(Idle)) else current
  }

  /** Playback rate the frame policy gives the run action while moving: half speed when only `s` is held. */
  function RunTimeScale(forward: bool, backward: bool): (r: real)
    ensures r == 0.5 <==> backward && !forward
    ensures r == 1.0 <==> !(backward && !forward)
  {
    if backward && !forward then 0.5 else 1.0
  }
}
