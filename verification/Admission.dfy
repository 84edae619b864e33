/** The admission gate as a step machine: every file or lock operation of a job, a maintenance run
    or a reconciliation is one step, and a process may die after any of them.

    Kernel locks belong to processes and vanish with them. Records are durable. The work a process
    started (a job's process group and daemon operations, an apply container and its requests) is
    not stopped by the death of the process that started it. */
module Admission {
  import opened Runs
  import opened Wrappers

  /** Identifier of a coordinator; it is also the identifier of the record that coordinator writes. */
  type Id = nat

  datatype Phase = Waiting | Active | Uncertain

  /** `jobs/<id>.json`. The flag says whether the registration lock is held on the file that is at
      this path now: replacing the file leaves the lock on the old one. */
  datatype JobFile = JobFile(phase: Phase, locked: bool)

  /** `maintenance.json`. The flag says whether the record names the apply container. */
  datatype MaintenanceFile = MaintenanceFile(id: Id, phase: Phase, named: bool)

  /** What a launched job still has going on: members of its process group, operations inside the
      daemon that outlive their client, and the receipt written by its finalizer. */
  datatype JobWork = JobWork(group: bool, daemon: bool, receipt: bool)

  /** An apply container; a start that the daemon refuses leaves it as it was created. `inFlight` is a mutating
      request without a full reply; `accepted` says that the logs of the exited container satisfy the completion
      contract. */
  datatype Container = Created | StartSent | Running(inFlight: bool) | Exited(inFlight: bool, accepted: bool)

  /** Where a job is in its code: outside and inside an admission attempt, with its lease, and in the
      `finally` part that settles its record. */
  datatype JobPc =
    | JTry | JRead | JProbe(todo: set<Id>) | JBlocked | JCleared | JActivity | JWritten | JLocked
    | JBody(attempted: bool)
    | JExit(known: bool) | JSettle(known: bool) | JSettled(known: bool) | JClose(known: bool)

  /** Where a maintenance run is: until it is told about authority, with its lease, and in `finally`. */
  datatype RunPc =
    | MStart | MRead | MBlocked | MWritten | MWait | MAbandon | MWithdraw | MWithdrawn
    | MHeld | MCheck | MRefused | MClear | MGranted
    | MBody | MCreated | MRecord | MRecorded | MReady | MStarted
    | MExit(known: bool, named: bool) | MSettle(known: bool, named: bool) | MSettled(known: bool) | MClose(known: bool)

  /** Where an operator's reconciliation of one record is. */
  datatype RecoveryPc = RTry | RIn | RHeld | RSelected | RChecked | RAudited | RRemoved | RClosed

  datatype Pc = Job(job: JobPc) | Run(run: RunPc) | Recovery(target: Id, recovery: RecoveryPc) | Gone

  datatype State = State(
    maintenance: Option<MaintenanceFile>,
    jobs: map<Id, JobFile>,
    audits: set<Id>,
    admission: Option<Id>,
    shared: set<Id>,
    exclusive: Option<Id>,
    pcs: map<Id, Pc>,
    work: map<Id, JobWork>,
    containers: map<Id, Container>,
    granted: set<Id>)

  const Init := State(None, map[], {}, None, {}, None, map[], map[], map[], {})

  /** Locks and the end of a process. `Throw` is an exception inside the guarded code. */
  datatype LockOp = Enter | Leave | Throw(known: bool) | Crash

  /** A job until it has its lease, and from then on. */
  datatype AdmitOp = ReadMaintenance | Probe(other: Id) | ProbesDone | TakeShared | WriteJob | LockRegistration

  datatype JobOp = Attempt | Launch | CompleteJob | SettleJob | CloseJob

  /** A maintenance run until it has its lease, and from then on. */
  datatype RequestOp = FindRecord | WriteWaiting | TakeExclusive | Withdraw | CheckJobs | Grant

  datatype RunOp = CreateContainer | NameContainer | SendStart | CompleteRun | SettleRun | CloseRun

  datatype RecoveryOp = TakeRecovery | Select | CheckContainer | WriteAudit | RemoveRecord | CloseRecovery

  /** What the started work and the daemon do on their own, whether or not their coordinator lives. */
  datatype WorkOp =
    | GroupExits | OperationBegins | OperationEnds | WriteReceipt
    | ContainerStarts | StartFails | RequestSent | RequestReplied | ContainerExits(accepted: bool)

  /** One step; `p` is the coordinator that takes it, or whose work takes it. */
  datatype Step =
    | Spawn(p: Id, entry: Pc)
    | OnLock(p: Id, lockOp: LockOp)
    | OnAdmit(p: Id, admitOp: AdmitOp)
    | OnJob(p: Id, jobOp: JobOp)
    | OnRequest(p: Id, requestOp: RequestOp)
    | OnRun(p: Id, runOp: RunOp)
    | OnRecovery(p: Id, recoveryOp: RecoveryOp)
    | OnWork(p: Id, workOp: WorkOp)

  /** Work of an admitted job that may still be changing the daemon. */
  predicate JobRunning(s: State, j: Id) {
    j in s.work && (s.work[j].group || s.work[j].daemon)
  }

  /** Work of an apply container that may be changing the daemon now or later without help. */
  predicate ApplyRunning(s: State, m: Id) {
    m in s.containers &&
    match s.containers[m]
    case Created => false
    case StartSent => true
    case Running(_) => true
    case Exited(inFlight, _) => inFlight
  }

  predicate OwnsMaintenance(s: State, p: Id) {
    s.maintenance.Some? && s.maintenance.value.id == p
  }

  predicate Present(s: State, i: Id) {
    i in s.jobs || OwnsMaintenance(s, i)
  }

  /** A registration that says its job is unresolved: marked uncertain, or its process lock is free. */
  predicate Stuck(s: State, j: Id) {
    j in s.jobs && (s.jobs[j].phase == Uncertain || !s.jobs[j].locked)
  }

  /** What an operator must have established before signing the evidence for record `i`. */
  predicate TruthfulEvidence(s: State, i: Id) {
    i in s.pcs && s.pcs[i] == Gone && !JobRunning(s, i) && !ApplyRunning(s, i)
  }

  /** The kernel locks a coordinator holds at each point of its code. */
  datatype Locks = Locks(admission: bool, shared: bool, exclusive: bool)

  function HeldByJob(pc: JobPc): (r: Locks) {
    match pc
    case JTry => Locks(false, false, false)
    case JRead | JProbe(_) | JBlocked | JCleared => Locks(true, false, false)
    case JActivity | JWritten | JLocked | JSettle(_) | JSettled(_) => Locks(true, true, false)
    case JBody(_) | JExit(_) | JClose(_) => Locks(false, true, false)
  }

  function HeldByRun(pc: RunPc): (r: Locks) {
    match pc
    case MStart | MWait | MAbandon => Locks(false, false, false)
    case MRead | MBlocked | MWritten | MWithdraw | MWithdrawn => Locks(true, false, false)
    case MCheck | MRefused | MClear | MGranted | MRecord | MRecorded | MSettle(_, _) | MSettled(_) =>
      Locks(true, false, true)
    case MHeld | MBody | MCreated | MReady | MStarted | MExit(_, _) | MClose(_) => Locks(false, false, true)
  }

  function HeldByRecovery(pc: RecoveryPc): (r: Locks) {
    match pc
    case RTry => Locks(false, false, false)
    case RIn | RClosed => Locks(true, false, false)
    case RHeld | RSelected | RChecked | RAudited | RRemoved => Locks(true, false, true)
  }

  function Held(pc: Pc): (r: Locks) {
    match pc
    case Job(job) => HeldByJob(job)
    case Run(run) => HeldByRun(run)
    case Recovery(_, recovery) => HeldByRecovery(recovery)
    case Gone => Locks(false, false, false)
  }

  predicate IsEntry(pc: Pc) {
    pc == Job(JTry) || pc == Run(MStart) || (pc.Recovery? && pc.recovery.RTry?)
  }

  /** Where the code waits for the admission lock, and where it continues once it holds it. */
  function Entered(pc: Pc): (r: Option<Pc>) {
    match pc
    case Job(JTry) => Some(Job(JRead))
    case Job(JExit(known)) => Some(Job(JSettle(known)))
    case Job(_) => None
    case Run(MStart) => Some(Run(MRead))
    case Run(MAbandon) => Some(Run(MWithdraw))
    case Run(MHeld) => Some(Run(MCheck))
    case Run(MCreated) => Some(Run(MRecord))
    case Run(MExit(known, named)) => Some(Run(MSettle(known, named)))
    case Run(_) => None
    case Recovery(target, RTry) => Some(Recovery(target, RIn))
    case Recovery(_, _) => None
    case Gone => None
  }

  /** Where the code releases the admission lock, and where it continues afterwards. */
  function Left(pc: Pc): (r: Option<Pc>) {
    match pc
    case Job(JBlocked) => Some(Job(JTry))
    case Job(JLocked) => Some(Job(JBody(false)))
    case Job(JSettled(known)) => Some(Job(JClose(known)))
    case Job(_) => None
    case Run(MBlocked) => Some(Gone)
    case Run(MWritten) => Some(Run(MWait))
    case Run(MWithdrawn) => Some(Gone)
    case Run(MRefused) => Some(Run(MExit(true, false)))
    case Run(MGranted) => Some(Run(MBody))
    case Run(MRecorded) => Some(Run(MReady))
    case Run(MSettled(known)) => Some(Run(MClose(known)))
    case Run(_) => None
    case Recovery(_, RClosed) => Some(Gone)
    case Recovery(_, _) => None
    case Gone => None
  }

  /** Where an exception reaches a handler that does more than release locks, and which outcome the
      handlers may then report. A job whose launch was attempted and a maintenance run whose start was
      sent are never known complete. Elsewhere an exception ends the process like a crash. */
  function Thrown(pc: Pc, known: bool): (r: Option<Pc>) {
    match pc
    case Job(JBody(attempted)) => if known && attempted then None else Some(Job(JExit(known)))
    case Job(_) => None
    case Run(MWait) => if known then None else Some(Run(MAbandon))
    case Run(MHeld) => if known then None else Some(Run(MExit(false, false)))
    case Run(MCheck) => if known then None else Some(Run(MExit(false, false)))
    case Run(MClear) => if known then None else Some(Run(MExit(false, false)))
    case Run(MGranted) => if known then None else Some(Run(MExit(false, false)))
    case Run(MBody) => Some(Run(MExit(known, false)))
    case Run(MCreated) => Some(Run(MExit(known, false)))
    case Run(MRecord) => Some(Run(MExit(known, true)))
    case Run(MRecorded) => Some(Run(MExit(known, true)))
    case Run(MReady) => Some(Run(MExit(known, true)))
    case Run(MStarted) => if known then None else Some(Run(MExit(false, true)))
    case Run(_) => None
    case Recovery(_, _) => None
    case Gone => None
  }

  function At(s: State, p: Id, pc: Pc): (r: State) {
    s.(pcs := s.pcs[p := pc])
  }

  /** The admission lock is free again if `p` held it. */
  function DropAdmission(s: State, p: Id): (r: State) {
    s.(admission := if s.admission == Some(p) then None else s.admission)
  }

  /** Everything the kernel takes back from `p` when it exits. */
  function DropLocks(s: State, p: Id): (r: State) {
    DropAdmission(s, p).(
      shared := s.shared - {p},
      exclusive := if s.exclusive == Some(p) then None else s.exclusive,
      jobs := if p in s.jobs then s.jobs[p := s.jobs[p].(locked := false)] else s.jobs)
  }

  predicate CanLock(s: State, p: Id, op: LockOp)
    requires p in s.pcs
  {
    match op
    case Enter => Entered(s.pcs[p]).Some? && s.admission == None
    case Leave => Left(s.pcs[p]).Some?
    case Throw(known) => Thrown(s.pcs[p], known).Some?
    case Crash => s.pcs[p] != Gone
  }

  function DoLock(s: State, p: Id, op: LockOp): (r: State)
    requires p in s.pcs && CanLock(s, p, op)
  {
    match op
    case Enter => At(s.(admission := Some(p)), p, Entered(s.pcs[p]).value)
    case Leave => At(s.(admission := None), p, Left(s.pcs[p]).value)
    case Throw(known) => At(DropAdmission(s, p), p, Thrown(s.pcs[p], known).value)
    case Crash => At(DropLocks(s, p), p, Gone)
  }

  predicate CanAdmit(s: State, p: Id, op: AdmitOp)
    requires p in s.pcs
  {
    s.pcs[p].Job? &&
    var pc := s.pcs[p].job;
    match op
    case ReadMaintenance => pc == JRead
    case Probe(other) => pc.JProbe? && other in pc.todo
    case ProbesDone => pc == JProbe({})
    case TakeShared => pc == JCleared && s.exclusive == None
    case WriteJob => pc == JActivity
    case LockRegistration => pc == JWritten && p in s.jobs
  }

  function DoAdmit(s: State, p: Id, op: AdmitOp): (r: State)
    requires p in s.pcs && CanAdmit(s, p, op)
  {
    match op
    case ReadMaintenance => At(s, p, Job(if s.maintenance.Some? then JBlocked else JProbe(s.jobs.Keys)))
    case Probe(other) => At(s, p, Job(if Stuck(s, other) then JBlocked else JProbe(s.pcs[p].job.todo - {other})))
    case ProbesDone => At(s, p, Job(JCleared))
    case TakeShared => At(s.(shared := s.shared + {p}), p, Job(JActivity))
    case WriteJob => At(s.(jobs := s.jobs[p := JobFile(Active, false)]), p, Job(JWritten))
    case LockRegistration =>
      At(s.(jobs := s.jobs[p := s.jobs[p].(locked := true)], granted := s.granted + {p}), p, Job(JLocked))
  }

  predicate CanJob(s: State, p: Id, op: JobOp)
    requires p in s.pcs
  {
    s.pcs[p].Job? &&
    var pc := s.pcs[p].job;
    match op
    case Attempt => pc == JBody(false)
    case Launch => pc == JBody(true) && p !in s.work
    case CompleteJob => pc == JBody(true) && p in s.work && s.work[p].receipt && !s.work[p].group
    case SettleJob => pc.JSettle? && (pc.known ==> p in s.jobs)
    case CloseJob => pc.JClose?
  }

  function DoJob(s: State, p: Id, op: JobOp): (r: State)
    requires p in s.pcs && CanJob(s, p, op)
  {
    match op
    case Attempt => At(s, p, Job(JBody(true)))
    case Launch => s.(work := s.work[p := JobWork(true, false, false)])
    case CompleteJob => At(s, p, Job(JExit(true)))
    case SettleJob =>
      var known := s.pcs[p].job.known;
      At(s.(jobs := if known then s.jobs - {p} else s.jobs[p := JobFile(Uncertain, false)]), p, Job(JSettled(known)))
    case CloseJob => At(DropLocks(s, p), p, Gone)
  }

  predicate CanRequest(s: State, p: Id, op: RequestOp)
    requires p in s.pcs
  {
    s.pcs[p].Run? &&
    var pc := s.pcs[p].run;
    match op
    case FindRecord => pc == MRead && s.maintenance.Some?
    case WriteWaiting => pc == MRead && s.maintenance == None
    case TakeExclusive => pc == MWait && s.exclusive == None && s.shared == {}
    case Withdraw => pc == MWithdraw && OwnsMaintenance(s, p)
    case CheckJobs => pc == MCheck
    case Grant => pc == MClear
  }

  function DoRequest(s: State, p: Id, op: RequestOp): (r: State)
    requires p in s.pcs && CanRequest(s, p, op)
  {
    match op
    case FindRecord => At(s, p, Run(MBlocked))
    case WriteWaiting => At(s.(maintenance := Some(MaintenanceFile(p, Waiting, false))), p, Run(MWritten))
    case TakeExclusive => At(s.(exclusive := Some(p)), p, Run(MHeld))
    case Withdraw => At(s.(maintenance := None), p, Run(MWithdrawn))
    case CheckJobs => At(s, p, Run(if s.jobs != map[] then MRefused else MClear))
    case Grant =>
      At(s.(maintenance := Some(MaintenanceFile(p, Active, false)), granted := s.granted + {p}), p, Run(MGranted))
  }

  predicate CanRun(s: State, p: Id, op: RunOp)
    requires p in s.pcs
  {
    s.pcs[p].Run? &&
    var pc := s.pcs[p].run;
    match op
    case CreateContainer => pc == MBody
    case NameContainer => pc == MRecord
    case SendStart => pc == MReady
    case CompleteRun => pc == MStarted && p in s.containers && s.containers[p].Exited? && s.containers[p].accepted
    case SettleRun => pc.MSettle? && (pc.known ==> OwnsMaintenance(s, p))
    case CloseRun => pc.MClose?
  }

  function DoRun(s: State, p: Id, op: RunOp): (r: State)
    requires p in s.pcs && CanRun(s, p, op)
  {
    match op
    case CreateContainer => At(s.(containers := s.containers[p := Created]), p, Run(MCreated))
    case NameContainer => At(s.(maintenance := Some(MaintenanceFile(p, Active, true))), p, Run(MRecorded))
    case SendStart => At(s.(containers := s.containers[p := StartSent]), p, Run(MStarted))
    case CompleteRun => At(s, p, Run(MExit(true, true)))
    case SettleRun =>
      var pc := s.pcs[p].run;
      At(s.(maintenance := if pc.known then None else Some(MaintenanceFile(p, Uncertain, pc.named))),
         p, Run(MSettled(pc.known)))
    case CloseRun => At(DropLocks(s, p), p, Gone)
  }

  predicate CanRecover(s: State, p: Id, op: RecoveryOp)
    requires p in s.pcs
  {
    s.pcs[p].Recovery? &&
    var target, pc := s.pcs[p].target, s.pcs[p].recovery;
    match op
    case TakeRecovery => pc == RIn && s.exclusive == None && s.shared == {}
    case Select => pc == RHeld && Present(s, target)
    case CheckContainer => pc == RSelected && (target in s.containers ==> !s.containers[target].Running?)
    case WriteAudit => pc == RChecked
    case RemoveRecord => pc == RAudited && Present(s, target)
    case CloseRecovery => pc == RRemoved
  }

  function DoRecover(s: State, p: Id, op: RecoveryOp): (r: State)
    requires p in s.pcs && CanRecover(s, p, op)
  {
    var target := s.pcs[p].target;
    match op
    case TakeRecovery => At(s.(exclusive := Some(p)), p, Recovery(target, RHeld))
    case Select => At(s, p, Recovery(target, RSelected))
    case CheckContainer => At(s, p, Recovery(target, RChecked))
    case WriteAudit => At(s.(audits := s.audits + {target}), p, Recovery(target, RAudited))
    case RemoveRecord =>
      At(if target in s.jobs then s.(jobs := s.jobs - {target}) else s.(maintenance := None),
         p, Recovery(target, RRemoved))
    case CloseRecovery => At(s.(exclusive := None), p, Recovery(target, RClosed))
  }

  predicate CanWork(s: State, p: Id, op: WorkOp) {
    match op
    case GroupExits => p in s.work && s.work[p].group
    case OperationBegins => p in s.work && s.work[p].group && !s.work[p].receipt
    case OperationEnds => p in s.work && s.work[p].daemon
    case WriteReceipt => p in s.work && s.work[p].group && !s.work[p].daemon
    case ContainerStarts => p in s.containers && s.containers[p] == StartSent
    case StartFails => p in s.containers && s.containers[p] == StartSent
    case RequestSent => p in s.containers && s.containers[p] == Container.Running(false)
    case RequestReplied =>
      p in s.containers && (s.containers[p].Running? || s.containers[p].Exited?) && s.containers[p].inFlight
    case ContainerExits(accepted) =>
      p in s.containers && s.containers[p].Running? && (accepted ==> !s.containers[p].inFlight)
  }

  function DoWork(s: State, p: Id, op: WorkOp): (r: State)
    requires CanWork(s, p, op)
  {
    match op
    case GroupExits => s.(work := s.work[p := s.work[p].(group := false)])
    case OperationBegins => s.(work := s.work[p := s.work[p].(daemon := true)])
    case OperationEnds => s.(work := s.work[p := s.work[p].(daemon := false)])
    case WriteReceipt => s.(work := s.work[p := s.work[p].(receipt := true)])
    case ContainerStarts => s.(containers := s.containers[p := Container.Running(false)])
    case StartFails => s.(containers := s.containers[p := Created])
    case RequestSent => s.(containers := s.containers[p := Container.Running(true)])
    case RequestReplied => s.(containers := s.containers[p := s.containers[p].(inFlight := false)])
    case ContainerExits(accepted) =>
      s.(containers := s.containers[p := Exited(s.containers[p].inFlight, accepted)])
  }

  predicate Enabled(s: State, step: Step) {
    match step
    case Spawn(p, entry) =>
      p !in s.pcs && IsEntry(entry) && (entry.Recovery? ==> TruthfulEvidence(s, entry.target))
    case OnLock(p, op) => p in s.pcs && CanLock(s, p, op)
    case OnAdmit(p, op) => p in s.pcs && CanAdmit(s, p, op)
    case OnJob(p, op) => p in s.pcs && CanJob(s, p, op)
    case OnRequest(p, op) => p in s.pcs && CanRequest(s, p, op)
    case OnRun(p, op) => p in s.pcs && CanRun(s, p, op)
    case OnRecovery(p, op) => p in s.pcs && CanRecover(s, p, op)
    case OnWork(p, op) => CanWork(s, p, op)
  }

  function Do(s: State, step: Step): (r: State)
    requires Enabled(s, step)
  {
    match step
    case Spawn(p, entry) => At(s, p, entry)
    case OnLock(p, op) => DoLock(s, p, op)
    case OnAdmit(p, op) => DoAdmit(s, p, op)
    case OnJob(p, op) => DoJob(s, p, op)
    case OnRequest(p, op) => DoRequest(s, p, op)
    case OnRun(p, op) => DoRun(s, p, op)
    case OnRecovery(p, op) => DoRecover(s, p, op)
    case OnWork(p, op) => DoWork(s, p, op)
  }

  /** A run: each state follows from the one before it by the step taken there. */
  ghost predicate IsRun(run: seq<State>, steps: seq<Step>) {
    |run| == |steps| + 1 &&
    forall k {:trigger Position(k)} ::
      0 <= k < |steps| ==> Enabled(run[k], steps[k]) && run[k + 1] == Do(run[k], steps[k])
  }
}
