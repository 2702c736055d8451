/**
 * The program's module-level state (`keys`, `model`, `idleAction`,
 * `runAction`, `currentAction`) as one object updated in place by the
 * keyboard handlers, the two load callbacks and the animation tick.
 */
module Game {
  import opened Options
  import opened Input
  import opened Animation
  import opened Locomotion
  import opened Tracks
  import opened Controller

  class Runner {
    var keys: KeyTable
    var modelLoaded: bool
    var idleLoaded: bool
    var runLoaded: bool
    var currentAction: Option<Action>
    var runTimeScale: real
    var position: Vec3
    var yaw: real
    var runTracks: seq<Track>   // tracks of the clip `runAction` plays

    function Snapshot(): State
      reads this
    {
      State(keys, modelLoaded, idleLoaded, runLoaded, currentAction, runTimeScale, position, yaw)
    }

    ghost predicate Valid()
      reads this
    {
      Consistent(Snapshot())
    }

    constructor ()
      ensures Valid()
      ensures Snapshot() == Initial() && runTracks == []
    {
      keys := InitialKeys();
      modelLoaded, idleLoaded, runLoaded := false, false, false;
      currentAction := None;
      runTimeScale := 1.0;
      position := Vec3(0.0, 0.0, 0.0);
      yaw := 0.0;
      runTracks := [];
    }

    /** The `keydown` handler. */
    method KeyDown(key: string)
      requires Valid()
      modifies this`keys
      ensures Valid()
      ensures keys == KeyUpdate(old(keys), key, true)
    {
      var k := Lower(key);
      if k in keys {
        keys := keys[k := true];
      }
    }

    /** The `keyup` handler. */
    method KeyUp(key: string)
      requires Valid()
      modifies this`keys
      ensures Valid()
      ensures keys == KeyUpdate(old(keys), key, false)
    {
      var k := Lower(key);
      if k in keys {
        keys := keys[k := false];
      }
    }

    /** `crossFadeTo`: the fade itself belongs to the mixer; `currentAction` is reassigned. */
    method CrossFadeTo(target: Option<Action>)
      requires Valid()
      requires target == Some(Run) ==> runLoaded
      requires target == Some(Idle) ==> idleLoaded
      modifies this`currentAction
      ensures Valid()
      ensures currentAction == CrossFaded(old(currentAction), target)
    {
      if target.None? || currentAction.None? || target == currentAction {
        return;
      }
      currentAction := target;
    }

    /**
     * The success callback for Idle.fbx: the model is placed at the origin
     * with the heading the file gives it; when the file has an animation,
     * idle becomes the current action.
     */
    method LoadIdle(hasAnimation: bool, heading: real)
      requires Valid() && !modelLoaded
      modifies this
      ensures Valid()
      ensures modelLoaded && position == Vec3(0.0, 0.0, 0.0) && yaw == heading
      ensures idleLoaded == hasAnimation
      ensures currentAction == if hasAnimation then Some(Idle) else None
      ensures keys == old(keys) && !runLoaded && runTracks == old(runTracks)
      ensures runTimeScale == old(runTimeScale)
    {
      modelLoaded := true;
      position := Vec3(0.0, 0.0, 0.0);
      yaw := heading;
      if hasAnimation {
        idleLoaded := true;
        currentAction := Some(Idle);
      }
    }

    /**
     * The success callback for Running.fbx, started from the Idle.fbx
     * callback: `firstClip` holds the tracks of its first animation, if it has
     * one. The run action gets the filtered clip and the default rate.
     */
    method LoadRun(firstClip: Option<seq<Track>>)
      requires Valid() && modelLoaded && !runLoaded
      modifies this
      ensures Valid()
      ensures runLoaded == firstClip.Some?
      ensures firstClip.Some? ==> runTracks == FilterTracks(firstClip.value) && runTimeScale == 1.0
      ensures firstClip.None? ==> runTracks == old(runTracks) && runTimeScale == old(runTimeScale)
      ensures keys == old(keys) && modelLoaded && idleLoaded == old(idleLoaded)
      ensures currentAction == old(currentAction) && position == old(position) && yaw == old(yaw)
    {
      if firstClip.Some? {
        runTracks := FilterTracks(firstClip.value);
        runTimeScale := 1.0;
        runLoaded := true;
      }
    }

    /**
     * The first part of a tick: the action policy and the run rate. Returns
     * true when the rate write finds no run action, where the tick throws.
     */
    method SelectAndRate(movingForward: bool, movingBackward: bool) returns (threw: bool)
      requires Valid()
      modifies this`currentAction, this`runTimeScale
      ensures Valid()
      ensures var moving := movingForward || movingBackward;
        && threw == (moving && !runLoaded)
        && (threw ==> currentAction == old(currentAction) && runTimeScale == old(runTimeScale))
        && (!threw ==> currentAction == SelectAction(old(currentAction), idleLoaded, runLoaded, moving))
        && (!threw ==> runTimeScale == if moving then RunTimeScale(movingForward, movingBackward) else old(runTimeScale))
    {
      threw := false;
      if movingForward || movingBackward {
        if runLoaded && currentAction != Some(Run) {
          CrossFadeTo(Some(Run));
        }
        if !runLoaded {
          // `runAction.timeScale = ...` on an unset `runAction` throws here
          return true;
        }
        if movingBackward && !movingForward {
          runTimeScale := 0.5;
        } else {
          runTimeScale := 1.0;
        }
      } else {
        if idleLoaded && currentAction != Some(Idle) {
          CrossFadeTo(Some(Idle));
        }
      }
    }

    /** The second part of a tick: translate along `forward`, turn, clamp x and z. */
    method Locomote(forward: Vec3, movingForward: bool, movingBackward: bool, turnLeft: bool, turnRight: bool)
      requires Valid()
      modifies this`position, this`yaw
      ensures Valid()
      ensures position == ClampToWorld(Translate(old(position), forward, movingForward, movingBackward))
      ensures yaw == Turn(old(yaw), turnLeft, turnRight)
    {
      if movingForward {
        position := Add(position, Scale(forward, MoveSpeed));
      }
      if movingBackward {
        position := Add(position, Scale(forward, -MoveSpeed));
      }
      if turnLeft {
        yaw := yaw + RotationSpeed;
      }
      if turnRight {
        yaw := yaw - RotationSpeed;
      }
      position := Vec3(Clamp(position.x), position.y, Clamp(position.z));
    }

    /**
     * The controller part of one `animate()` tick (the mixer update, camera
     * and rendering are not modelled). `forward` is (0, 0, 1) rotated by the
     * model's quaternion, computed before the turn.
     */
    method Frame(forward: Vec3) returns (outcome: Outcome)
      requires Valid()
      modifies this
      ensures Valid()
      ensures outcome == Step(old(Snapshot()), forward).outcome
      ensures Snapshot() == Step(old(Snapshot()), forward).next
      ensures modelLoaded ==> InWorld(position)
      ensures runTracks == old(runTracks)
    {
      if !modelLoaded {
        return NoModel;
      }
      ghost var before := Snapshot();
      var movingForward := keys["w"];
      var movingBackward := keys["s"];
      var threw := SelectAndRate(movingForward, movingBackward);
      if threw {
        return TypeError;
      }
      Locomote(forward, movingForward, movingBackward, keys["a"], keys["d"]);
      outcome := Rendered;
      assert Snapshot() == Advance(before, forward);
    }
  }

  /** A session before Running.fbx has loaded: holding `W` does not move the model. */
  method SessionWithoutRun()
  {
    var plusZ := Vec3(0.0, 0.0, 1.0);
    var r := new Runner();
    var o := r.Frame(plusZ);
    assert o == NoModel;
    r.LoadIdle(true, 0.0);
    assert Lower("W") == "w" by {
      assert Lower("W") == [LowerChar('W')] + Lower([]);
    }
    r.KeyDown("W");
    assert Moving(r.Snapshot()) && !r.runLoaded;
    o := r.Frame(plusZ);
    assert o == TypeError && r.position == Vec3(0.0, 0.0, 0.0);
  }
}
