/** A pipeline run as a transition system (internal/pipeline/pipeline.go). One Step is one
    critical section, one channel operation or one nudge, so every interleaving of the
    scheduler loop, the stage goroutines, Decide and Cancel is a sequence of Steps. */
module Scheduler {
  import opened Wrappers
  import opened PipelineConfig
  import opened SchedulePass

  /** Where a stage's goroutine is. */
  datatype Pc =
    | Idle                        // not started
    | Working                     // deploying, or polling a gate
    | Selecting                   // blocked in select
    | Taken(approve: bool)        // an approval that has received its decision
    | Withdrawing(to: Status)     // an approval about to forget its pending decision
    | Leaving(to: Status)         // an approval about to finish without a decision
    | Ended
  {
    predicate Live() { !Idle? && !Ended? }
  }

  /** One stage's goroutine and, for an approval, the decisions on their way to it. */
  datatype Local = Local(
    kind: Kind,
    pc: Pc,
    sending: seq<bool>,   // accepted by Decide, not yet sent
    inbox: seq<bool>,     // in the stage's one-slot channel
    accepted: seq<bool>)  // every decision Decide has accepted

  datatype Sched =
    | Scanning                       // about to take the lock for a pass
    | Launching(ready: seq<string>)  // starting the goroutines of the stages the pass made ready
    | Parked                         // blocked on the wake slot
    | Draining                       // FinishedAt is set; waiting for the goroutines
    | Returned

  datatype State = State(
    status: Statuses,
    local: map<string, Local>,
    decisions: set<string>,  // stages with an entry in the decisions map
    cancelled: bool,
    finished: bool,          // FinishedAt is set
    wake: bool,              // the wake slot is full
    owed: nat,               // threads that changed something and have yet to nudge
    cancelling: nat,         // Cancel calls between their unlock and cancelling the context
    ctxDone: bool,
    sched: Sched)

  datatype Step =
    | Scan
    | Launch
    | Park
    | WakeUp
    | Return
    | Nudge
    | Report(n: string)               // an item changes, the stage's status does not
    | Close(n: string, ok: bool)      // a deploy or gate stage finishes
    | Hold(n: string)                 // a gate starts waiting for its next poll
    | Poll(n: string)
    | OpenApproval(n: string)
    | Expire(n: string)               // the stage's deadline fires
    | SeeCancel(n: string)            // the stage sees the cancelled context
    | Receive(n: string)
    | Forget(n: string)
    | Settle(n: string)               // an approval finishes
    | Decide(n: string, approve: bool)
    | Send(n: string)
    | MarkCancelled
    | CancelContext

  function InitStatuses(cfg: seq<Stage>, reused: set<string>): (st: Statuses)
    ensures st.Keys == StageNames(cfg)
    ensures forall n :: n in st ==> st[n] == if n in reused then Reused else Queued
  {
    map n | n in StageNames(cfg) :: if n in reused then Reused else Queued
  }

  function InitLocals(cfg: seq<Stage>): (local: map<string, Local>)
    ensures local.Keys == StageNames(cfg)
    ensures forall n :: n in local ==>
              local[n].pc.Idle? && local[n].sending == local[n].inbox == local[n].accepted == []
  {
    if cfg == [] then map[]
    else
      var k := |cfg| - 1;
      assert forall n :: n in StageNames(cfg) <==> n in StageNames(cfg[..k]) || n == cfg[k].name;
      InitLocals(cfg[..k])[cfg[k].name := Local(cfg[k].kind, Idle, [], [], [])]
  }

  function Init(cfg: seq<Stage>, reused: set<string>): State {
    State(
      InitStatuses(cfg, reused), InitLocals(cfg),
      {}, false, false, false, 0, 0, false, Scanning)
  }

  function LocalAt(s: State, n: string): Local {
    if n in s.local then s.local[n] else Local(Deploy, Idle, [], [], [])
  }

  predicate PcIs(s: State, n: string, pc: Pc) {
    n in s.local && n in s.status && s.local[n].pc == pc
  }

  predicate Enabled(s: State, step: Step) {
    match step
    case Scan => s.sched.Scanning?
    case Launch => s.sched.Launching? && s.sched.ready != [] && PcIs(s, s.sched.ready[0], Idle)
    case Park => s.sched == Launching([])
    case WakeUp => s.sched.Parked? && s.wake
    case Return => s.sched.Draining? && forall n :: n in s.local ==> !s.local[n].pc.Live()
    case Nudge => s.owed > 0
    case Report(n) => n in s.local && s.local[n].pc.Live()
    case Close(n, _) => PcIs(s, n, Working) && !s.local[n].kind.Approval?
    case Hold(n) => PcIs(s, n, Working) && s.local[n].kind.Gate?
    case Poll(n) => PcIs(s, n, Selecting) && s.local[n].kind.Gate?
    case OpenApproval(n) => PcIs(s, n, Working) && s.local[n].kind.Approval?
    case Expire(n) => PcIs(s, n, Selecting)
    case SeeCancel(n) => PcIs(s, n, Selecting) && s.ctxDone
    case Receive(n) => PcIs(s, n, Selecting) && s.local[n].inbox != []
    case Forget(n) => n in s.local && n in s.status && s.local[n].pc.Withdrawing?
    case Settle(n) => n in s.local && n in s.status && (s.local[n].pc.Taken? || s.local[n].pc.Leaving?)
    case Decide(n, _) => n in s.local && n in s.decisions && At(s.status, n).Waiting?
    case Send(n) => n in s.local && s.local[n].sending != [] && s.local[n].inbox == []
    case MarkCancelled => !s.finished
    case CancelContext => s.cancelling > 0
  }

  /** The state with stage n's goroutine at pc. */
  function Move(s: State, n: string, pc: Pc): State
    requires n in s.local
  {
    s.(local := s.local[n := s.local[n].(pc := pc)])
  }

  /** update: the status changes under the lock, and the nudge comes after the unlock. */
  function Update(s: State, n: string, to: Status, pc: Pc): State
    requires n in s.local
  {
    Move(s, n, pc).(status := s.status[n := to], owed := s.owed + 1)
  }

  function AfterScan(cfg: seq<Stage>, s: State): State {
    var p := PassOver(cfg, s.cancelled, s.status, s.wake);
    if !p.active && p.ready == [] && !p.wake then
      s.(status := p.status, wake := p.wake, finished := true, sched := Draining)
    else
      s.(status := p.status, wake := p.wake, sched := Launching(p.ready))
  }

  /** Leaving the select without a decision: an approval first withdraws its entry. */
  function LeaveSelect(s: State, n: string, to: Status): State
    requires n in s.local
  {
    if s.local[n].kind.Approval? then Move(s, n, Withdrawing(to)) else Update(s, n, to, Ended)
  }

  function Do(cfg: seq<Stage>, s: State, step: Step): State
    requires Enabled(s, step)
  {
    match step
    case Scan => AfterScan(cfg, s)
    case Launch => Move(s, s.sched.ready[0], Working).(sched := Launching(s.sched.ready[1..]))
    case Park => s.(sched := Parked)
    case WakeUp => s.(sched := Scanning, wake := false)
    case Return => s.(sched := Returned, ctxDone := true)
    case Nudge => s.(owed := s.owed - 1, wake := true)
    case Report(n) => s.(owed := s.owed + 1)
    case Close(n, ok) => Update(s, n, if ok then Success else Failed, Ended)
    case Hold(n) => Update(s, n, Waiting, Selecting)
    case Poll(n) => Move(s, n, Working)
    case OpenApproval(n) => Update(s, n, Waiting, Selecting).(decisions := s.decisions + {n})
    case Expire(n) => LeaveSelect(s, n, Failed)
    case SeeCancel(n) => LeaveSelect(s, n, Cancelled)
    case Receive(n) => s.(local := s.local[n := s.local[n].(pc := Taken(s.local[n].inbox[0]), inbox := s.local[n].inbox[1..])])
    case Forget(n) => Move(s, n, Leaving(s.local[n].pc.to)).(decisions := s.decisions - {n})
    case Settle(n) =>
      var pc := s.local[n].pc;
      Update(s, n, if pc.Leaving? then pc.to else if pc.approve then Success else Failed, Ended)
    case Decide(n, approve) =>
      var l := s.local[n];
      s.(decisions := s.decisions - {n},
         local := s.local[n := l.(sending := l.sending + [approve], accepted := l.accepted + [approve])])
    case Send(n) =>
      var l := s.local[n];
      s.(local := s.local[n := l.(sending := l.sending[1..], inbox := l.inbox + [l.sending[0]])])
    case MarkCancelled => s.(cancelled := true, cancelling := s.cancelling + 1)
    case CancelContext => s.(cancelling := s.cancelling - 1, ctxDone := true, owed := s.owed + 1)
  }

  /** The state a sequence of steps leads to, if each is possible when its turn comes. */
  function Exec(cfg: seq<Stage>, s: State, steps: seq<Step>): Option<State>
    decreases |steps|
  {
    if steps == [] then Some(s)
    else if Enabled(s, steps[0]) then Exec(cfg, Do(cfg, s, steps[0]), steps[1..])
    else None
  }

  ghost predicate ReachableFrom(cfg: seq<Stage>, init: State, s: State) {
    exists steps :: Exec(cfg, init, steps) == Some(s)
  }

  ghost function Done(s: State): set<string> {
    set n | n in s.status && s.status[n].Good()
  }

  /** Reachable in a run that is the generation-th of a chain of reruns: each rerun may start
      from any state its source run has reached, and reuses what was done there. */
  ghost predicate Reachable(cfg: seq<Stage>, generation: nat, s: State) {
    if generation == 0 then ReachableFrom(cfg, Init(cfg, {}), s)
    else exists source :: Reachable(cfg, generation - 1, source) && ReachableFrom(cfg, Init(cfg, Done(source)), s)
  }

  /** The derived status of the whole run (statusLocked). */
  datatype RunStatus = RunQueued | RunRunning | RunWaiting | RunSuccess | RunFailed | RunCancelled

  ghost predicate Any(st: Statuses, to: Status) {
    exists n :: n in st && st[n] == to
  }

  ghost function StatusOf(s: State): RunStatus {
    if Any(s.status, Running) then RunRunning
    else if Any(s.status, Waiting) then RunWaiting
    else if !s.finished then
      if s.cancelled || exists n :: n in s.status && s.status[n] != Queued then RunRunning else RunQueued
    else if s.cancelled then RunCancelled
    else if Any(s.status, Failed) || Any(s.status, Skipped) || Any(s.status, Cancelled) then RunFailed
    else RunSuccess
  }
}
