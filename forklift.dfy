/** The forklift patrol of Assets/ForkliftAI.cs: a three-phase machine that turns
    towards the current waypoint, drives to it, waits there, and then heads for
    the other waypoint.

    The floating-point engine calls are abstracted away: the angular test of
    RotateTowardsTarget arrives as the boolean `converged`, the distance test of
    MoveTowardsTarget as `arrived`, and the new heading and position they compute
    as plain values. The coroutine WaitAtWaypoint is split at its `yield`: the
    part before it runs synchronously when arrival is detected, the part after
    it is the event `WaitElapsed`. */
module ForkliftPatrol {

  import opened Engine

  /** A serialized reference to a scene Transform: unassigned, or one object. */
  datatype Ref = Null | Transform(id: nat)

  datatype Phase = RotateToTarget | MoveToTarget | WaitAtTarget

  /** The phase that follows `p` in the patrol cycle. */
  function Next(p: Phase): Phase
  {
    match p
    case RotateToTarget => MoveToTarget
    case MoveToTarget => WaitAtTarget
    case WaitAtTarget => RotateToTarget
  }

  /** `q` is `p` or the phase right after it: no phase is skipped. */
  predicate Advances(p: Phase, q: Phase)
  {
    q == p || q == Next(p)
  }

  /** The discrete state of one forklift: its phase, the freeze flag, the
      waypoint it heads for, and how many WaitAtWaypoint coroutines are
      suspended at their `yield`. */
  datatype Patrol = Patrol(phase: Phase, isWaiting: bool, target: Ref, pendingWaits: nat)

  /** What the engine delivers: one frame (a call of Update) with the outcome of
      the two guards, or the resumption of a suspended WaitAtWaypoint. */
  datatype Event = Frame(converged: bool, arrived: bool) | WaitElapsed

  /** The target after a wait: the conditional of ForkliftAI.cs line 114,
      comparing references by identity. */
  function Swap(t: Ref, a: Ref, b: Ref): (r: Ref)
    ensures r == a || r == b
    ensures t == a ==> r == b
    ensures t != a ==> r == a
  {
    if t == a then b else a
  }

  /** With two distinct waypoints, swapping twice returns to the start. */
  lemma SwapTwice(t: Ref, a: Ref, b: Ref)
    requires a != b && (t == a || t == b)
    ensures Swap(Swap(t, a, b), a, b) == t
    ensures Swap(t, a, b) != t
  {
  }

  /** The invariant of a started forklift: the target is one of the two
      waypoints, the flag is set exactly in the waiting phase, and exactly one
      coroutine is suspended while waiting and none otherwise. */
  ghost predicate Inv(s: Patrol, a: Ref, b: Ref)
  {
    (s.target == a || s.target == b) &&
    (s.isWaiting <==> s.phase == WaitAtTarget) &&
    s.pendingWaits == (if s.isWaiting then 1 else 0)
  }

  /** The state Start leaves: heading for waypoint A, rotating, not waiting. */
  function Initial(a: Ref): (r: Patrol)
    ensures forall b: Ref :: Inv(r, a, b)
  {
    Patrol(RotateToTarget, false, a, 0)
  }

  /** The part of WaitAtWaypoint before its `yield`. */
  function EnterWait(s: Patrol): (r: Patrol)
    ensures r.phase == WaitAtTarget && r.isWaiting
    ensures r.target == s.target
    ensures r.pendingWaits == s.pendingWaits + 1
  {
    s.(phase := WaitAtTarget, isWaiting := true, pendingWaits := s.pendingWaits + 1)
  }

  /** The part of WaitAtWaypoint after its `yield`: it runs only for a
      suspended coroutine. */
  function CompleteWait(s: Patrol, a: Ref, b: Ref): (r: Patrol)
    requires s.pendingWaits > 0
    ensures r.phase == RotateToTarget && !r.isWaiting
    ensures r.target == a || r.target == b
    ensures a != b && (s.target == a || s.target == b) ==> r.target != s.target
    ensures r.pendingWaits < s.pendingWaits
    ensures Inv(s, a, b) ==> Inv(r, a, b) && Advances(s.phase, r.phase)
  {
    s.(target := Swap(s.target, a, b), phase := RotateToTarget, isWaiting := false,
       pendingWaits := s.pendingWaits - 1)
  }

  /** One call of Update. A frozen forklift does nothing; an unassigned target
      throws before anything is written, so that frame changes nothing; the
      switch has no case for WaitAtTarget. */
  function Tick(s: Patrol, converged: bool, arrived: bool): (r: Patrol)
    // the freeze of line 42
    ensures s.isWaiting ==> r == s
    // a frame never changes the target
    ensures r.target == s.target
    // rotation: on to MoveToTarget exactly when the angle has converged
    ensures !s.isWaiting && s.phase == RotateToTarget && s.target != Null ==>
              (r.phase == MoveToTarget <==> converged) &&
              (r.phase != MoveToTarget ==> r == s)
    // movement: arrival enters the wait in the same frame
    ensures !s.isWaiting && s.phase == MoveToTarget && s.target != Null ==>
              (arrived ==> r.phase == WaitAtTarget && r.isWaiting) &&
              (!arrived ==> r == s)
    ensures s.target == Null ==> r == s
    ensures Advances(s.phase, r.phase)
    ensures forall a: Ref, b: Ref :: Inv(s, a, b) ==> Inv(r, a, b)
  {
    if s.isWaiting then s
    else match s.phase
      case RotateToTarget =>
        if s.target == Null then s
        else if converged then s.(phase := MoveToTarget)
        else s
      case MoveToTarget =>
        if s.target == Null then s
        else if arrived then EnterWait(s)
        else s
      case WaitAtTarget => s
  }

  /** Whether the engine can deliver `e` in state `s`: a frame always comes, a
      resumption only for a suspended coroutine. */
  predicate Enabled(s: Patrol, e: Event)
  {
    e.Frame? || s.pendingWaits > 0
  }

  function Step(s: Patrol, e: Event, a: Ref, b: Ref): (r: Patrol)
    requires Enabled(s, e)
    ensures r.target != s.target ==> e == WaitElapsed
    ensures Inv(s, a, b) ==> Inv(r, a, b) && Advances(s.phase, r.phase)
  {
    match e
    case Frame(converged, arrived) => Tick(s, converged, arrived)
    case WaitElapsed => CompleteWait(s, a, b)
  }

  /** Every event of `evs` can be delivered in the state it meets. */
  ghost predicate Feasible(s: Patrol, evs: seq<Event>, a: Ref, b: Ref)
    decreases |evs|
  {
    |evs| == 0 || (Enabled(s, evs[0]) && Feasible(Step(s, evs[0], a, b), evs[1..], a, b))
  }

  /** The states a forklift passes through: `s`, then one per event. */
  function Trace(s: Patrol, evs: seq<Event>, a: Ref, b: Ref): (r: seq<Patrol>)
    requires Feasible(s, evs, a, b)
    ensures |r| == |evs| + 1 && r[0] == s
    decreases |evs|
  {
    if |evs| == 0 then [s] else [s] + Trace(Step(s, evs[0], a, b), evs[1..], a, b)
  }

  /** How many coroutine resumptions `evs` holds. */
  function Completions(evs: seq<Event>): nat
  {
    if |evs| == 0 then 0 else (if evs[0] == WaitElapsed then 1 else 0) + Completions(evs[1..])
  }

  /** The invariant holds in every state of every run that starts in it. */
  lemma {:induction false} TraceKeepsInv(s: Patrol, evs: seq<Event>, a: Ref, b: Ref)
    requires Inv(s, a, b) && Feasible(s, evs, a, b)
    ensures forall i :: 0 <= i < |Trace(s, evs, a, b)| ==> Inv(Trace(s, evs, a, b)[i], a, b)
    decreases |evs|
  {
    if |evs| > 0 {
      TraceKeepsInv(Step(s, evs[0], a, b), evs[1..], a, b);
    }
  }

  /** In every run the phases follow Rotate, Move, Wait, Rotate, ... with
      none skipped. */
  lemma {:induction false} TracePhasesInOrder(s: Patrol, evs: seq<Event>, a: Ref, b: Ref)
    requires Inv(s, a, b) && Feasible(s, evs, a, b)
    ensures forall i :: 0 <= i < |evs| ==>
              Advances(Trace(s, evs, a, b)[i].phase, Trace(s, evs, a, b)[i + 1].phase)
    decreases |evs|
  {
    if |evs| > 0 {
      TracePhasesInOrder(Step(s, evs[0], a, b), evs[1..], a, b);
    }
  }

  /** With two distinct waypoints the target alternates: after a run it is the
      starting target when the run completed an even number of waits, and the
      other waypoint otherwise. */
  lemma {:induction false} TraceAlternatesTarget(s: Patrol, evs: seq<Event>, a: Ref, b: Ref)
    requires a != b && Inv(s, a, b) && Feasible(s, evs, a, b)
    ensures var last := Trace(s, evs, a, b)[|evs|];
            last.target == if Completions(evs) % 2 == 0 then s.target else Swap(s.target, a, b)
    decreases |evs|
  {
    if |evs| > 0 {
      var s' := Step(s, evs[0], a, b);
      TraceAlternatesTarget(s', evs[1..], a, b);
      SwapTwice(s.target, a, b);
    }
  }

  /** One full leg from Start: the forklift turns, drives, waits, and then
      heads for waypoint B. */
  lemma FirstLeg(a: Ref, b: Ref)
    requires a != b && a != Null
    ensures var evs := [Frame(true, false), Frame(false, true), WaitElapsed];
            Feasible(Initial(a), evs, a, b) &&
            Trace(Initial(a), evs, a, b) ==
              [Patrol(RotateToTarget, false, a, 0), Patrol(MoveToTarget, false, a, 0),
               Patrol(WaitAtTarget, true, a, 1), Patrol(RotateToTarget, false, b, 0)]
  {
  }

  /** A transform's rotation as Euler angles, or a position. */
  datatype Vec3 = Vec3(x: real, y: real, z: real)

  /** The behaviour as the engine holds it. The speeds, the arrival threshold
      and the wait time only feed the floating-point calls that are inputs here. */
  class ForkliftAI {
    const waypointA: Ref
    const waypointB: Ref
    var currentTarget: Ref
    var isWaiting: bool
    var currentState: Phase
    /** Suspended WaitAtWaypoint coroutines, as the engine's scheduler holds them. */
    var pendingWaits: nat
    var originalX: real
    var originalZ: real
    /** The transform this behaviour is attached to. */
    var eulerAngles: Vec3
    var position: Vec3

    function State(): Patrol
      reads this
    {
      Patrol(currentState, isWaiting, currentTarget, pendingWaits)
    }

    ghost predicate Valid()
      reads this
    {
      Inv(State(), waypointA, waypointB)
    }

    /** The component as the scene loads it: the inspector's references, the
        field initialisers and the default of every other field. */
    constructor (a: Ref, b: Ref, rotation: Vec3, at: Vec3)
      ensures waypointA == a && waypointB == b
      ensures currentTarget == Null && !isWaiting && currentState == RotateToTarget
      ensures pendingWaits == 0 && originalX == 0.0 && originalZ == 0.0
      ensures eulerAngles == rotation && position == at
    {
      waypointA, waypointB := a, b;
      currentTarget, isWaiting, currentState := Null, false, RotateToTarget;
      pendingWaits, originalX, originalZ := 0, 0.0, 0.0;
      eulerAngles, position := rotation, at;
    }

    /** The engine calls Start before the first Update and before any
        coroutine runs, so the flag and the scheduler still hold their initial
        values; Start itself does not reset them. */
    method Start()
      requires !isWaiting && pendingWaits == 0
      modifies this
      ensures State() == Initial(waypointA) && Valid()
      ensures originalX == eulerAngles.x && originalZ == eulerAngles.z
      ensures eulerAngles == old(eulerAngles) && position == old(position)
    {
      originalX := eulerAngles.x;
      originalZ := eulerAngles.z;
      currentTarget := waypointA;
      currentState := RotateToTarget;
    }

    /** One frame. `newY` is the heading Mathf.MoveTowardsAngle yields and
        `converged` the outcome of the Mathf.DeltaAngle test; `newPosition` is
        the position after the step along the flattened direction and `arrived`
        the outcome of the Vector3.Distance test. */
    method Update(newY: real, converged: bool, newPosition: Vec3, arrived: bool) returns (outcome: Outcome)
      modifies this
      ensures State() == Tick(old(State()), converged, arrived)
      ensures old(Valid()) ==> Valid()
      ensures var phaseRuns := !old(isWaiting) && old(currentState) != WaitAtTarget;
              outcome == (if phaseRuns && currentTarget == Null then NullReference else Completed)
      ensures eulerAngles ==
                if !old(isWaiting) && old(currentState) == RotateToTarget && currentTarget != Null
                then Vec3(originalX, newY, originalZ) else old(eulerAngles)
      ensures position ==
                if !old(isWaiting) && old(currentState) == MoveToTarget && currentTarget != Null
                then newPosition else old(position)
      ensures originalX == old(originalX) && originalZ == old(originalZ)
    {
      outcome := Completed;
      if isWaiting {
        return;
      }
      match currentState
      case RotateToTarget =>
        outcome := RotateTowardsTarget(newY, converged);
      case MoveToTarget =>
        outcome := MoveTowardsTarget(newPosition, arrived);
      case WaitAtTarget =>
    }

    /** Turns towards the target: only the Y heading changes, X and Z are the
        ones recorded by Start. */
    method RotateTowardsTarget(newY: real, converged: bool) returns (outcome: Outcome)
      requires currentState == RotateToTarget && !isWaiting
      modifies this
      ensures State() == Tick(old(State()), converged, false)
      ensures outcome == (if currentTarget == Null then NullReference else Completed)
      ensures eulerAngles == if currentTarget != Null then Vec3(originalX, newY, originalZ) else old(eulerAngles)
      ensures position == old(position)
      ensures originalX == old(originalX) && originalZ == old(originalZ)
    {
      if currentTarget == Null {
        return NullReference;
      }
      eulerAngles := Vec3(originalX, newY, originalZ);
      if converged {
        currentState := MoveToTarget;
      }
      return Completed;
    }

    /** Drives towards the target and, on arrival, starts WaitAtWaypoint, whose
        part before the `yield` runs at once. */
    method MoveTowardsTarget(newPosition: Vec3, arrived: bool) returns (outcome: Outcome)
      requires currentState == MoveToTarget && !isWaiting
      modifies this
      ensures State() == Tick(old(State()), false, arrived)
      ensures outcome == (if currentTarget == Null then NullReference else Completed)
      ensures position == if currentTarget != Null then newPosition else old(position)
      ensures eulerAngles == old(eulerAngles)
      ensures originalX == old(originalX) && originalZ == old(originalZ)
    {
      if currentTarget == Null {
        return NullReference;
      }
      position := newPosition;
      if arrived {
        WaitAtWaypointEnter();
      }
      return Completed;
    }

    /** WaitAtWaypoint up to its `yield`. */
    method WaitAtWaypointEnter()
      modifies this
      ensures State() == EnterWait(old(State()))
      ensures eulerAngles == old(eulerAngles) && position == old(position)
      ensures originalX == old(originalX) && originalZ == old(originalZ)
    {
      currentState := WaitAtTarget;
      isWaiting := true;
      pendingWaits := pendingWaits + 1;
    }

    /** WaitAtWaypoint after its `yield`, once WaitForSeconds has elapsed. */
    method WaitAtWaypointResume()
      requires pendingWaits > 0
      modifies this
      ensures State() == CompleteWait(old(State()), waypointA, waypointB)
      ensures old(Valid()) ==> Valid()
      ensures eulerAngles == old(eulerAngles) && position == old(position)
      ensures originalX == old(originalX) && originalZ == old(originalZ)
    {
      currentTarget := if currentTarget == waypointA then waypointB else waypointA;
      currentState := RotateToTarget;
      isWaiting := false;
      pendingWaits := pendingWaits - 1;
    }
  }
}
