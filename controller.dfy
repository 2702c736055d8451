/**
 * The controller state kept in the program's module-level variables, and the
 * body of one `animate()` tick as a function of that state. The class in
 * module Game updates the same state in place and is proved against `Step`.
 */
module Controller {
  import opened Options
  import opened Input
  import opened Animation
  import opened Locomotion

  datatype State = State(
    keys: KeyTable,
    modelLoaded: bool,     // `model` is set (Idle.fbx has loaded)
    idleLoaded: bool,      // `idleAction` is set (Idle.fbx had an animation)
    runLoaded: bool,       // `runAction` is set (Running.fbx loaded with an animation)
    current: Option<Action>,
    runTimeScale: real,    // `runAction.timeScale`
    position: Vec3,        // `model.position`
    yaw: real)             // `model.rotation.y`

  /** What one tick ends with. */
  datatype Outcome =
    | NoModel    // `model` unset: the tick skips the controller
    | Rendered   // the controller ran to the end
    | TypeError  // the tick threw writing `timeScale` on an unset `runAction`

  datatype StepResult = StepResult(outcome: Outcome, next: State)

  /** The state before anything has loaded. */
  function Initial(): State {
    State(InitialKeys(), false, false, false, None, 1.0, Vec3(0.0, 0.0, 0.0), 0.0)
  }

  /**
   * What holds between events: the table has its four entries; the actions
   * exist only once the model does; `currentAction` is set exactly when the
   * idle action is (a fade never clears it), and is run only when run exists;
   * a loaded model stands inside the world square.
   */
  ghost predicate Consistent(s: State) {
    && s.keys.Keys == Tracked
    && (s.idleLoaded ==> s.modelLoaded)
    && (s.runLoaded ==> s.modelLoaded)
    && (s.current.Some? <==> s.idleLoaded)
    && (s.current == Some(Run) ==> s.runLoaded)
    && (s.modelLoaded ==> InWorld(s.position))
  }

  lemma InitialConsistent()
    ensures Consistent(Initial())
  {
  }

  function Held(s: State, k: string): bool
    requires Consistent(s) && k in Tracked
  {
    s.keys[k]
  }

  predicate Moving(s: State)
    requires Consistent(s)
  {
    Held(s, "w") || Held(s, "s")
  }

  /**
   * The part of a tick after the action policy's throw point: action selection,
   * run time scale (written only when the run action exists), translation,
   * turn and clamp.
   */
  function Advance(s: State, forward: Vec3): (r: State)
    requires Consistent(s) && s.modelLoaded
    ensures Consistent(r)
    ensures r.keys == s.keys && r.modelLoaded && r.idleLoaded == s.idleLoaded && r.runLoaded == s.runLoaded
  {
    var w, b := Held(s, "w"), Held(s, "s");
    s.(current := SelectAction(s.current, s.idleLoaded, s.runLoaded, w || b),
       runTimeScale := if (w || b) && s.runLoaded then RunTimeScale(w, b) else s.runTimeScale,
       position := ClampToWorld(Translate(s.position, forward, w, b)),
       yaw := Turn(s.yaw, Held(s, "a"), Held(s, "d")))
  }

  /**
   * One `animate()` tick as written. `forward` is the vector (0, 0, 1) rotated
   * by the model's quaternion at the start of the tick.
   */
  function Step(s: State, forward: Vec3): (r: StepResult)
    requires Consistent(s)
    ensures Consistent(r.next)
    ensures r.outcome == NoModel <==> !s.modelLoaded
    ensures r.outcome == TypeError <==> s.modelLoaded && Moving(s) && !s.runLoaded
    ensures r.outcome != Rendered ==> r.next == s
    ensures r.next.keys == s.keys && r.next.modelLoaded == s.modelLoaded
    ensures r.next.idleLoaded == s.idleLoaded && r.next.runLoaded == s.runLoaded
  {
    if !s.modelLoaded then StepResult(NoModel, s)
    else if Moving(s) && !s.runLoaded then StepResult(TypeError, s)
    else StepResult(Rendered, Advance(s, forward))
  }

  /** The tick with the `timeScale` write guarded by the existence of `runAction`. */
  function StepGuarded(s: State, forward: Vec3): (r: State)
    requires Consistent(s)
    ensures Consistent(r)
    ensures !s.modelLoaded ==> r == s
    ensures Step(s, forward).outcome != TypeError ==> r == Step(s, forward).next
  {
    if !s.modelLoaded then s else Advance(s, forward)
  }

  /** After every tick the model stands inside the world square. */
  lemma StepInWorld(s: State, forward: Vec3)
    requires Consistent(s) && s.modelLoaded
    ensures InWorld(Step(s, forward).next.position)
  {
  }

  /** With `w` or `s` held and both actions present, run is current after the tick. */
  lemma StepSelectsRun(s: State, forward: Vec3)
    requires Consistent(s) && s.modelLoaded && s.idleLoaded && s.runLoaded && Moving(s)
    ensures Step(s, forward).outcome == Rendered
    ensures Step(s, forward).next.current == Some(Run)
  {
  }

  /** With neither `w` nor `s` held and idle present, idle is current after the tick. */
  lemma StepSelectsIdle(s: State, forward: Vec3)
    requires Consistent(s) && s.modelLoaded && s.idleLoaded && !Moving(s)
    ensures Step(s, forward).outcome == Rendered
    ensures Step(s, forward).next.current == Some(Idle)
  {
  }

  /** While moving, the run rate is 0.5 when only `s` is held and 1.0 otherwise; standing still leaves it. */
  lemma StepRunTimeScale(s: State, forward: Vec3)
    requires Consistent(s) && s.modelLoaded && s.runLoaded
    ensures Moving(s) ==> Step(s, forward).next.runTimeScale == if Held(s, "s") && !Held(s, "w") then 0.5 else 1.0
    ensures !Moving(s) ==> Step(s, forward).next.runTimeScale == s.runTimeScale
  {
  }

  /** With `w` and `s` both held the two translations cancel. */
  lemma StepForwardBackwardCancel(s: State, forward: Vec3)
    requires Consistent(s) && s.modelLoaded && s.runLoaded && Held(s, "w") && Held(s, "s")
    ensures Step(s, forward).next.position == s.position
  {
  }

  /** With only `w` held the position moves by `forward * MoveSpeed`, then is clamped. */
  lemma StepForwardOnly(s: State, forward: Vec3)
    requires Consistent(s) && s.modelLoaded && s.runLoaded && Held(s, "w") && !Held(s, "s")
    ensures Step(s, forward).next.position == ClampToWorld(Add(s.position, Scale(forward, MoveSpeed)))
  {
  }

  /** `rotation.y` moves by +0.05 for `a`, -0.05 for `d`, not at all for both or neither; y is never clamped. */
  lemma StepTurn(s: State, forward: Vec3)
    requires Consistent(s) && s.modelLoaded && (Moving(s) ==> s.runLoaded)
    ensures var y := Step(s, forward).next.yaw;
      && (Held(s, "a") == Held(s, "d") ==> y == s.yaw)
      && (Held(s, "a") && !Held(s, "d") ==> y == s.yaw + 0.05)
      && (Held(s, "d") && !Held(s, "a") ==> y == s.yaw - 0.05)
    ensures Step(s, forward).next.position.y == Translate(s.position, forward, Held(s, "w"), Held(s, "s")).y
  {
  }

  /**
   * The forward vector is fixed before the turn: two states that differ only
   * in `a` and `d` reach the same position in a tick.
   */
  lemma StepTurnDoesNotMove(s: State, t: State, forward: Vec3)
    requires Consistent(s) && Consistent(t)
    requires t == s.(keys := t.keys, yaw := t.yaw)
    requires t.keys["w"] == s.keys["w"] && t.keys["s"] == s.keys["s"]
    ensures Step(t, forward).next.position == Step(s, forward).next.position
  {
  }

  /** Before the model has loaded a tick changes nothing. */
  lemma StepBeforeLoadUnchanged(s: State, forward: Vec3)
    requires Consistent(s) && !s.modelLoaded
    ensures Step(s, forward) == StepResult(NoModel, s)
  {
  }

  /** From x = 49.95, one tick of `w` along +x ends at x = 50 exactly. */
  lemma StepClampsAtBoundary(s: State)
    requires Consistent(s) && s.modelLoaded && s.runLoaded && Held(s, "w") && !Held(s, "s")
    requires s.position.x == 49.95
    ensures Step(s, Vec3(1.0, 0.0, 0.0)).next.position.x == 50.0
  {
  }

  /** `n` ticks with the same forward vector and keys. */
  function Frames(s: State, forward: Vec3, n: nat): (r: State)
    requires Consistent(s)
    ensures Consistent(r)
    ensures r.keys == s.keys && r.modelLoaded == s.modelLoaded
    ensures r.idleLoaded == s.idleLoaded && r.runLoaded == s.runLoaded
    decreases n
  {
    if n == 0 then s else Frames(Step(s, forward).next, forward, n - 1)
  }

  /**
   * Holding only `w` for `n` ticks with a fixed forward vector moves the model
   * by `n * MoveSpeed` along it when the end point is inside the world; the
   * heading does not change.
   */
  lemma {:induction false} HoldForward(s: State, forward: Vec3, n: nat)
    requires Consistent(s) && s.modelLoaded && s.runLoaded
    requires Held(s, "w") && !Held(s, "s") && !Held(s, "a") && !Held(s, "d")
    requires InWorld(Displaced(s.position, forward, n))
    ensures Frames(s, forward, n).position == Displaced(s.position, forward, n)
    ensures Frames(s, forward, n).yaw == s.yaw
    decreases n
  {
    if n == 0 {
      assert Displaced(s.position, forward, 0) == s.position;
    } else {
      FirstStepInWorld(s.position, forward, n);
      var s1 := Step(s, forward).next;
      assert s1.position == Displaced(s.position, forward, 1);
      HoldForward(s1, forward, n - 1);
    }
  }

  /** Ticks of `w` facing +z from the origin: after `n` of them z is `n / 10` (after ten, 1.0), up to the boundary. */
  lemma ForwardFromOrigin(s: State, n: nat)
    requires Consistent(s) && s.modelLoaded && s.runLoaded && s.position == Vec3(0.0, 0.0, 0.0)
    requires Held(s, "w") && !Held(s, "s") && !Held(s, "a") && !Held(s, "d")
    requires n <= 500
    ensures Frames(s, Vec3(0.0, 0.0, 1.0), n).position == Vec3(0.0, 0.0, n as real / 10.0)
  {
    var plusZ := Vec3(0.0, 0.0, 1.0);
    assert Displaced(s.position, plusZ, n) == Vec3(0.0, 0.0, n as real / 10.0);
    HoldForward(s, plusZ, n);
  }

  /**
   * As written, a loaded model whose run action does not exist never moves
   * while `w` or `s` is held: every tick throws before the translation.
   */
  lemma {:induction false} NeverMovesWithoutRun(s: State, forward: Vec3, n: nat)
    requires Consistent(s) && s.modelLoaded && !s.runLoaded && Moving(s)
    ensures Frames(s, forward, n) == s
    decreases n
  {
    if n > 0 {
      NeverMovesWithoutRun(Step(s, forward).next, forward, n - 1);
    }
  }

  /** The guarded tick moves the model without the run action, and keeps the current action. */
  lemma StepGuardedMovesWithoutRun(s: State, forward: Vec3)
    requires Consistent(s) && s.modelLoaded && !s.runLoaded && Moving(s)
    ensures StepGuarded(s, forward).position == ClampToWorld(Translate(s.position, forward, Held(s, "w"), Held(s, "s")))
    ensures StepGuarded(s, forward).current == s.current
    ensures StepGuarded(s, forward).runTimeScale == s.runTimeScale
  {
  }
}
