/** The phase machine of the hot-swap runtime: its transition table, the
    object that walks it, and what every walk along the table keeps. */
module RuntimeState {
  import opened Prelude

  datatype Phase =
    | Ready
    | Verifying
    | SnapshotCaptured
    | Swapping
    | Swapped
    | Forwarding
    | RollingBack
    | RouteQuarantined
    | WorkerQuarantined

  datatype QuarantineScope = RouteScope | WorkerScope

  // The transition table.
  function Successors(p: Phase): set<Phase> {
    match p
    case Ready => {Verifying}
    case Verifying => {SnapshotCaptured, RouteQuarantined}
    case SnapshotCaptured => {Swapping, RouteQuarantined}
    case Swapping => {Swapped, RollingBack, RouteQuarantined}
    case Swapped => {Forwarding, RollingBack}
    case Forwarding => {RollingBack}
    case RollingBack => {Ready, RouteQuarantined, WorkerQuarantined}
    case RouteQuarantined => {Ready, WorkerQuarantined}
    case WorkerQuarantined => {}
  }

  // The table read backwards: the phases from which one may be entered.
  function Predecessors(p: Phase): set<Phase> {
    match p
    case Ready => {RollingBack, RouteQuarantined}
    case Verifying => {Ready}
    case SnapshotCaptured => {Verifying}
    case Swapping => {SnapshotCaptured}
    case Swapped => {Swapping}
    case Forwarding => {Swapped}
    case RollingBack => {Swapping, Swapped, Forwarding}
    case RouteQuarantined => {Verifying, SnapshotCaptured, Swapping, RollingBack}
    case WorkerQuarantined => {RollingBack, RouteQuarantined}
  }

  lemma TableReadBackwards(from: Phase, to: Phase)
    ensures to in Successors(from) <==> from in Predecessors(to)
  {
  }

  predicate Legal(from: Phase, to: Phase) {
    to in Successors(from)
  }

  // A transition whose InvalidStateTransition is swallowed by the caller.
  function Attempt(p: Phase, target: Phase): Phase {
    if Legal(p, target) then target else p
  }

  datatype TransitionRecord = TransitionRecord(from: Phase, to: Phase, reason: string, routeId: RouteId)

  class RuntimeStateMachine {
    var phase: Phase
    var history: seq<TransitionRecord>
    var scope: Option<QuarantineScope>
    var reason: string

    // Every recorded transition is an edge of the table, whatever was forced in between.
    ghost predicate Valid()
      reads this
    {
      forall i :: 0 <= i < |history| ==> Legal(history[i].from, history[i].to)
    }

    constructor ()
      ensures Valid() && phase == Ready && history == [] && scope == None && reason == ""
    {
      phase, history, scope, reason := Ready, [], None, "";
    }

    // `ok` is false where the source raises InvalidStateTransition.
    method Transition(target: Phase, why: string, routeId: RouteId) returns (ok: bool)
      requires Valid()
      modifies this
      ensures Valid()
      ensures ok == Legal(old(phase), target)
      ensures !ok ==> phase == old(phase) && history == old(history) && scope == old(scope) && reason == old(reason)
      ensures ok ==> phase == target && history == old(history) + [TransitionRecord(old(phase), target, why, routeId)]
      ensures ok ==>
        match target
        case RouteQuarantined => scope == Some(RouteScope) && reason == why
        case WorkerQuarantined => scope == Some(WorkerScope) && reason == why
        case Ready => scope == None && reason == ""
        case _ => scope == old(scope) && reason == old(reason)
    {
      if target !in Successors(phase) {
        return false;
      }
      history := history + [TransitionRecord(phase, target, why, routeId)];
      match target {
        case RouteQuarantined => scope, reason := Some(RouteScope), why;
        case WorkerQuarantined => scope, reason := Some(WorkerScope), why;
        case Ready => scope, reason := None, "";
        case _ =>
      }
      phase := target;
      return true;
    }

    // The assignment `phase = p` that error recovery uses when the table says no.
    method Force(p: Phase)
      requires Valid()
      modifies this`phase
      ensures Valid() && phase == p
    {
      phase := p;
    }
  }

  // ----- Walks along the table -----

  ghost predicate Walk(path: seq<Phase>) {
    forall i, j :: 0 <= i && j == i + 1 && j < |path| ==> Legal(path[i], path[j])
  }

  // A snapshot was captured at `i`, and the walk has not been Ready since.
  ghost predicate CapturedAt(path: seq<Phase>, i: nat) {
    i < |path| && path[i] == SnapshotCaptured && forall j :: i <= j < |path| ==> path[j] != Ready
  }

  // A walk that starts Ready and touches the weights has captured a snapshot
  // since it last was Ready.
  lemma {:induction false} SwapFollowsSnapshot(path: seq<Phase>) returns (i: nat)
    requires |path| > 0 && path[0] == Ready && Walk(path)
    requires path[|path| - 1] in {Swapping, Swapped, Forwarding}
    ensures CapturedAt(path, i)
  {
    var n := |path| - 1;
    assert Legal(path[n - 1], path[n]);
    if path[n - 1] == SnapshotCaptured {
      i := n - 1;
    } else {
      i := SwapFollowsSnapshot(path[..n]);
    }
  }

  // A worker in quarantine stays there along the table, and the only way in is
  // out of a rollback or of a route quarantine.
  lemma QuarantineIsTerminal(path: seq<Phase>, i: nat)
    requires Walk(path) && i < |path| && path[i] == WorkerQuarantined
    ensures i == |path| - 1
    ensures i > 0 ==> path[i - 1] in {RollingBack, RouteQuarantined}
  {
    assert i + 1 < |path| ==> Legal(path[i], path[i + 1]);
    assert i > 0 ==> Legal(path[i - 1], path[i]);
  }
}
