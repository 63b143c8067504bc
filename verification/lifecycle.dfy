// The task lifecycle graph (src/factory/domain/task_lifecycle.py, enums.py).
module Lifecycle {

  datatype TaskStatus =
    | Discovered | Ready | Claimed | Running | Validating | PrOpen | WaitingHuman
    | ChangesRequested | Done | Blocked | Failed | Cancelled

  // The normal lifecycle edges leaving a status.
  function Targets(s: TaskStatus): set<TaskStatus> {
    match s
    case Discovered => {Ready, Cancelled, Failed}
    case Ready => {Claimed, Blocked, Cancelled}
    case Claimed => {Running, Blocked, Cancelled}
    case Running => {Validating, Blocked, Failed, Cancelled}
    case Validating => {PrOpen, Ready, Blocked, Done, Failed, Cancelled}
    case PrOpen => {WaitingHuman, Blocked, Failed, Cancelled}
    case WaitingHuman => {ChangesRequested, Done, Failed, Cancelled}
    case ChangesRequested => {Ready, Cancelled}
    case Blocked => {Ready, Validating, Cancelled}
    case Done => {}
    case Failed => {}
    case Cancelled => {}
  }

  // Extra edges the storage adapter accepts beyond the normal graph.
  function PersistenceOnlyTargets(s: TaskStatus): set<TaskStatus> {
    match s
    case Ready => {WaitingHuman}
    case Running => {WaitingHuman}
    case Failed => {Ready}
    case _ => {}
  }

  predicate CanTransition(source: TaskStatus, target: TaskStatus) {
    target in Targets(source)
  }

  predicate CanPersist(source: TaskStatus, target: TaskStatus) {
    CanTransition(source, target) || target in PersistenceOnlyTargets(source)
  }

  // Both graphs read the other way round: from where a status can be reached.
  lemma GraphBySource(source: TaskStatus)
    ensures !CanPersist(source, Discovered)
    ensures CanPersist(source, Ready) <==> source in {Discovered, Validating, ChangesRequested, Blocked, Failed}
    ensures CanPersist(source, Claimed) <==> source == Ready
    ensures CanPersist(source, Running) <==> source == Claimed
    ensures CanPersist(source, Validating) <==> source in {Running, Blocked}
    ensures CanPersist(source, PrOpen) <==> source == Validating
    ensures CanPersist(source, WaitingHuman) <==> source in {PrOpen, Ready, Running}
    ensures CanPersist(source, ChangesRequested) <==> source == WaitingHuman
    ensures CanPersist(source, Done) <==> source in {Validating, WaitingHuman}
    ensures CanPersist(source, Blocked) <==> source in {Ready, Claimed, Running, Validating, PrOpen}
    ensures CanPersist(source, Failed) <==> source in {Discovered, Running, Validating, PrOpen, WaitingHuman}
    ensures CanPersist(source, Cancelled) <==> source !in {Done, Failed, Cancelled}
    ensures CanTransition(source, Ready) <==> source in {Discovered, Validating, ChangesRequested, Blocked}
    ensures CanTransition(source, WaitingHuman) <==> source == PrOpen
  {
  }

  // The two audited exceptions outside both graphs: an operator's terminal
  // recovery, and the resolution of a terminal task on provider evidence.
  predicate ExceptionalEdge(source: TaskStatus, target: TaskStatus) {
    (source == Failed && target == Blocked) || (source in {Failed, Cancelled} && target == Done)
  }

  // Statuses that occupy a claim slot in the work-in-progress guard.
  predicate BusyStatus(s: TaskStatus) {
    s in {Claimed, Running, Validating, PrOpen}
  }
}
