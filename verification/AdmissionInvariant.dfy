/** What every step of the admission gate keeps. */
module AdmissionInvariant {
  import opened Runs
  import opened Wrappers
  import opened Admission

  /** A lock is recorded as held by `p` exactly where the code of `p` holds it. */
  predicate HolderMatches(s: State, p: Id, pc: Pc) {
    Held(pc) == Locks(s.admission == Some(p), p in s.shared, s.exclusive == Some(p))
  }

  /** Between reading no maintenance record and leaving admission, a job sees none. */
  predicate SawNoMaintenance(pc: Pc) {
    pc.Job? && (pc.job.JProbe? || pc.job.JCleared? || pc.job.JActivity? || pc.job.JWritten? || pc.job.JLocked?)
  }

  /** The registration a living job must find under its own identifier. */
  function ExpectedJob(pc: JobPc): (r: Option<JobFile>) {
    match pc
    case JTry | JRead | JProbe(_) | JBlocked | JCleared | JActivity => None
    case JWritten => Some(JobFile(Active, false))
    case JLocked | JBody(_) | JExit(_) | JSettle(_) => Some(JobFile(Active, true))
    case JSettled(known) => if known then None else Some(JobFile(Uncertain, false))
    case JClose(known) => if known then None else Some(JobFile(Uncertain, false))
  }

  predicate JobRecordMatches(s: State, p: Id, pc: Pc) {
    match pc
    case Job(job) =>
      (p in s.jobs <==> ExpectedJob(job).Some?) &&
      (p in s.jobs ==> s.jobs[p] == ExpectedJob(job).value) &&
      (p in s.jobs && s.jobs[p].locked ==> p in s.granted)
    case Gone => p in s.jobs ==> !s.jobs[p].locked
    case _ => p !in s.jobs
  }

  /** The maintenance record a living run must find. */
  predicate MaintenanceRecordMatches(s: State, p: Id, pc: Pc) {
    match pc
    case Run(run) => (
      match run
      case MStart | MRead | MBlocked | MWithdrawn => !OwnsMaintenance(s, p) && p !in s.granted
      case MWritten | MWait | MAbandon | MWithdraw | MHeld | MCheck | MRefused =>
        s.maintenance == Some(MaintenanceFile(p, Waiting, false)) && p !in s.granted
      case MClear => s.maintenance == Some(MaintenanceFile(p, Waiting, false)) && p !in s.granted && s.jobs == map[]
      case MGranted | MBody | MCreated | MRecord =>
        s.maintenance == Some(MaintenanceFile(p, Active, false)) && p in s.granted
      case MRecorded | MReady | MStarted =>
        s.maintenance == Some(MaintenanceFile(p, Active, true)) && p in s.granted
      case MExit(_, named) =>
        OwnsMaintenance(s, p) && s.maintenance.value.phase != Uncertain && (s.maintenance.value.named ==> named)
      case MSettle(_, named) =>
        OwnsMaintenance(s, p) && s.maintenance.value.phase != Uncertain && (s.maintenance.value.named ==> named)
      case MSettled(known) =>
        (OwnsMaintenance(s, p) <==> !known) && (!known ==> s.maintenance.value.phase == Uncertain)
      case MClose(known) =>
        (OwnsMaintenance(s, p) <==> !known) && (!known ==> s.maintenance.value.phase == Uncertain))
    case Job(_) => !OwnsMaintenance(s, p)
    case Recovery(_, _) => !OwnsMaintenance(s, p) && p !in s.granted
    case Gone => true
  }

  predicate FilesMatch(s: State, p: Id, pc: Pc) {
    (SawNoMaintenance(pc) ==> s.maintenance == None) &&
    JobRecordMatches(s, p, pc) &&
    MaintenanceRecordMatches(s, p, pc)
  }

  predicate HasLaunched(pc: JobPc) {
    pc == JBody(true) || pc.JExit? || pc.JSettle? || pc.JSettled? || pc.JClose?
  }

  /** A job reports a known outcome only when its work is over. */
  predicate JobWorkMatches(s: State, p: Id, pc: Pc) {
    (JobRunning(s, p) ==> p in s.granted && p in s.jobs) &&
    (p in s.work && s.work[p].receipt ==> !s.work[p].daemon) &&
    (p in s.work ==> pc == Gone || (pc.Job? && HasLaunched(pc.job))) &&
    (pc.Job? && (pc.job.JExit? || pc.job.JSettle?) && pc.job.known ==> !JobRunning(s, p))
  }

  /** A maintenance run reports a known outcome only when its container's work is over. */
  predicate ApplyWorkMatches(s: State, p: Id, pc: Pc) {
    (ApplyRunning(s, p) ==> OwnsMaintenance(s, p) && s.maintenance.value.named && p in s.granted) &&
    (p in s.containers && s.containers[p].Exited? && s.containers[p].accepted ==> !s.containers[p].inFlight) &&
    match pc
    case Run(run) => (
      match run
      case MStart | MRead | MBlocked | MWritten | MWait | MAbandon | MWithdraw | MWithdrawn
         | MHeld | MCheck | MRefused | MClear | MGranted | MBody => p !in s.containers
      case MCreated | MRecord | MRecorded | MReady => p in s.containers && s.containers[p] == Created
      case MStarted => p in s.containers
      case MExit(known, _) => known ==> !ApplyRunning(s, p)
      case MSettle(known, _) => known ==> !ApplyRunning(s, p)
      case MSettled(_) | MClose(_) => true)
    case Gone => true
    case _ => p !in s.containers
  }

  /** A reconciliation acts on true evidence, holds the record it selected, and audits before it removes. */
  predicate EvidenceMatches(s: State, pc: Pc) {
    (pc.Recovery? ==> TruthfulEvidence(s, pc.target)) &&
    (pc.Recovery? && (pc.recovery.RSelected? || pc.recovery.RChecked? || pc.recovery.RAudited?) ==>
      Present(s, pc.target)) &&
    (pc.Recovery? && pc.recovery.RAudited? ==> pc.target in s.audits)
  }

  predicate CoordinatorOk(s: State, p: Id, pc: Pc) {
    HolderMatches(s, p, pc) && FilesMatch(s, p, pc) && JobWorkMatches(s, p, pc) && ApplyWorkMatches(s, p, pc) &&
    EvidenceMatches(s, pc)
  }

  predicate Fresh(s: State, p: Id) {
    p !in s.jobs && p !in s.work && p !in s.containers && p !in s.granted && p !in s.shared &&
    !OwnsMaintenance(s, p) && s.admission != Some(p) && s.exclusive != Some(p)
  }

  predicate GlobalOk(s: State) {
    (s.exclusive.Some? ==> s.shared == {}) &&
    (s.maintenance.Some? ==> s.maintenance.value.id !in s.jobs) &&
    // A maintenance run that was ever granted authority finds no registration while its record or lock remains.
    (s.maintenance.Some? && s.maintenance.value.id in s.granted ==> s.jobs == map[]) &&
    (s.exclusive.Some? && s.exclusive.value in s.granted ==> s.jobs == map[])
  }

  ghost predicate Inv(s: State) {
    GlobalOk(s) &&
    (forall p | p in s.pcs :: CoordinatorOk(s, p, s.pcs[p])) &&
    (forall p | p !in s.pcs :: Fresh(s, p))
  }

  lemma InitEstablishesInv()
    ensures Inv(Init)
  {
  }

  ghost predicate SameElsewhere<T>(a: map<Id, T>, b: map<Id, T>, p: Id) {
    forall q | q != p :: (q in a <==> q in b) && (q in a ==> a[q] == b[q])
  }

  /** How far a step of `p` can reach: its own locks, registration and work, and the maintenance record
      when that is its own or absent. Records come and go only under the admission lock. */
  ghost predicate Reaches(s: State, t: State, p: Id) {
    p in t.pcs && SameElsewhere(s.pcs, t.pcs, p) &&
    (p in s.pcs && s.pcs[p] == Gone ==>
       t.pcs[p] == Gone && t.jobs == s.jobs &&
       (JobRunning(t, p) ==> JobRunning(s, p)) && (ApplyRunning(t, p) ==> ApplyRunning(s, p))) &&
    (t.admission != s.admission ==> s.admission in {None, Some(p)} && t.admission in {None, Some(p)}) &&
    (t.exclusive != s.exclusive ==> s.exclusive in {None, Some(p)} && t.exclusive in {None, Some(p)}) &&
    (forall q | q != p :: q in s.shared <==> q in t.shared) &&
    SameElsewhere(s.jobs, t.jobs, p) &&
    (p in t.jobs && p !in s.jobs ==> s.admission == Some(p)) &&
    (t.maintenance != s.maintenance ==>
       s.admission == Some(p) && (s.maintenance == None || OwnsMaintenance(s, p)) &&
       (t.maintenance == None || OwnsMaintenance(t, p))) &&
    SameElsewhere(s.work, t.work, p) &&
    SameElsewhere(s.containers, t.containers, p) &&
    s.granted <= t.granted <= s.granted + {p} &&
    s.audits <= t.audits
  }

  lemma LockReaches(s: State, p: Id, op: LockOp)
    requires p in s.pcs && GlobalOk(s) && CoordinatorOk(s, p, s.pcs[p]) && CanLock(s, p, op)
    ensures Reaches(s, DoLock(s, p, op), p) && GlobalOk(DoLock(s, p, op))
  {
  }

  lemma AdmitReaches(s: State, p: Id, op: AdmitOp)
    requires p in s.pcs && GlobalOk(s) && CoordinatorOk(s, p, s.pcs[p]) && CanAdmit(s, p, op)
    ensures Reaches(s, DoAdmit(s, p, op), p) && GlobalOk(DoAdmit(s, p, op))
  {
  }

  lemma JobReaches(s: State, p: Id, op: JobOp)
    requires p in s.pcs && GlobalOk(s) && CoordinatorOk(s, p, s.pcs[p]) && CanJob(s, p, op)
    ensures Reaches(s, DoJob(s, p, op), p) && GlobalOk(DoJob(s, p, op))
  {
  }

  lemma RequestReaches(s: State, p: Id, op: RequestOp)
    requires p in s.pcs && GlobalOk(s) && CoordinatorOk(s, p, s.pcs[p]) && CanRequest(s, p, op)
    ensures Reaches(s, DoRequest(s, p, op), p) && GlobalOk(DoRequest(s, p, op))
  {
  }

  lemma RunReaches(s: State, p: Id, op: RunOp)
    requires p in s.pcs && GlobalOk(s) && CoordinatorOk(s, p, s.pcs[p]) && CanRun(s, p, op)
    ensures Reaches(s, DoRun(s, p, op), p) && GlobalOk(DoRun(s, p, op))
  {
  }

  lemma RecoveryReaches(s: State, p: Id, op: RecoveryOp)
    requires p in s.pcs && GlobalOk(s) && CoordinatorOk(s, p, s.pcs[p]) && CanRecover(s, p, op) && op != RemoveRecord
    ensures Reaches(s, DoRecover(s, p, op), p) && GlobalOk(DoRecover(s, p, op))
  {
  }

  lemma WorkReaches(s: State, p: Id, op: WorkOp)
    requires p in s.pcs && GlobalOk(s) && CoordinatorOk(s, p, s.pcs[p]) && CanWork(s, p, op)
    ensures Reaches(s, DoWork(s, p, op), p) && GlobalOk(DoWork(s, p, op))
  {
  }

  lemma LockKeepsLocks(s: State, p: Id, op: LockOp)
    requires p in s.pcs && HolderMatches(s, p, s.pcs[p]) && CanLock(s, p, op)
    ensures var t := DoLock(s, p, op); HolderMatches(t, p, t.pcs[p])
  {
  }

  lemma LockKeepsFiles(s: State, p: Id, op: LockOp)
    requires p in s.pcs && FilesMatch(s, p, s.pcs[p]) && CanLock(s, p, op)
    ensures var t := DoLock(s, p, op); FilesMatch(t, p, t.pcs[p])
  {
  }

  lemma LockKeepsWork(s: State, p: Id, op: LockOp)
    requires p in s.pcs && CoordinatorOk(s, p, s.pcs[p]) && CanLock(s, p, op)
    ensures var t := DoLock(s, p, op);
            JobWorkMatches(t, p, t.pcs[p]) && ApplyWorkMatches(t, p, t.pcs[p]) && EvidenceMatches(t, t.pcs[p])
  {
  }

  lemma AdmitKeepsFiles(s: State, p: Id, op: AdmitOp)
    requires p in s.pcs && HolderMatches(s, p, s.pcs[p]) && FilesMatch(s, p, s.pcs[p]) && CanAdmit(s, p, op)
    ensures var t := DoAdmit(s, p, op); HolderMatches(t, p, t.pcs[p]) && FilesMatch(t, p, t.pcs[p])
  {
  }

  lemma AdmitKeepsWork(s: State, p: Id, op: AdmitOp)
    requires p in s.pcs && CoordinatorOk(s, p, s.pcs[p]) && CanAdmit(s, p, op)
    ensures var t := DoAdmit(s, p, op);
            JobWorkMatches(t, p, t.pcs[p]) && ApplyWorkMatches(t, p, t.pcs[p]) && EvidenceMatches(t, t.pcs[p])
  {
  }

  lemma JobKeepsFiles(s: State, p: Id, op: JobOp)
    requires p in s.pcs && HolderMatches(s, p, s.pcs[p]) && FilesMatch(s, p, s.pcs[p]) && CanJob(s, p, op)
    ensures var t := DoJob(s, p, op); HolderMatches(t, p, t.pcs[p]) && FilesMatch(t, p, t.pcs[p])
  {
  }

  lemma JobKeepsWork(s: State, p: Id, op: JobOp)
    requires p in s.pcs && CoordinatorOk(s, p, s.pcs[p]) && CanJob(s, p, op)
    ensures var t := DoJob(s, p, op);
            JobWorkMatches(t, p, t.pcs[p]) && ApplyWorkMatches(t, p, t.pcs[p]) && EvidenceMatches(t, t.pcs[p])
  {
  }

  lemma RequestKeepsFiles(s: State, p: Id, op: RequestOp)
    requires p in s.pcs && HolderMatches(s, p, s.pcs[p]) && FilesMatch(s, p, s.pcs[p]) && CanRequest(s, p, op)
    ensures var t := DoRequest(s, p, op); HolderMatches(t, p, t.pcs[p]) && FilesMatch(t, p, t.pcs[p])
  {
  }

  lemma RequestKeepsWork(s: State, p: Id, op: RequestOp)
    requires p in s.pcs && CoordinatorOk(s, p, s.pcs[p]) && CanRequest(s, p, op)
    ensures var t := DoRequest(s, p, op);
            JobWorkMatches(t, p, t.pcs[p]) && ApplyWorkMatches(t, p, t.pcs[p]) && EvidenceMatches(t, t.pcs[p])
  {
  }

  lemma RunKeepsLocks(s: State, p: Id, op: RunOp)
    requires p in s.pcs && HolderMatches(s, p, s.pcs[p]) && CanRun(s, p, op)
    ensures var t := DoRun(s, p, op); HolderMatches(t, p, t.pcs[p])
  {
  }

  lemma RunKeepsFiles(s: State, p: Id, op: RunOp)
    requires p in s.pcs && FilesMatch(s, p, s.pcs[p]) && CanRun(s, p, op)
    ensures var t := DoRun(s, p, op); FilesMatch(t, p, t.pcs[p])
  {
  }

  lemma RunKeepsWork(s: State, p: Id, op: RunOp)
    requires p in s.pcs && CoordinatorOk(s, p, s.pcs[p]) && CanRun(s, p, op)
    ensures var t := DoRun(s, p, op);
            JobWorkMatches(t, p, t.pcs[p]) && ApplyWorkMatches(t, p, t.pcs[p]) && EvidenceMatches(t, t.pcs[p])
  {
  }

  lemma RecoveryKeepsFiles(s: State, p: Id, op: RecoveryOp)
    requires p in s.pcs && HolderMatches(s, p, s.pcs[p]) && FilesMatch(s, p, s.pcs[p]) && CanRecover(s, p, op)
    ensures var t := DoRecover(s, p, op); HolderMatches(t, p, t.pcs[p]) && FilesMatch(t, p, t.pcs[p])
  {
  }

  lemma RecoveryKeepsWork(s: State, p: Id, op: RecoveryOp)
    requires p in s.pcs && CoordinatorOk(s, p, s.pcs[p]) && CanRecover(s, p, op)
    ensures var t := DoRecover(s, p, op);
            JobWorkMatches(t, p, t.pcs[p]) && ApplyWorkMatches(t, p, t.pcs[p]) && EvidenceMatches(t, t.pcs[p])
  {
  }

  lemma WorkKeepsFiles(s: State, p: Id, op: WorkOp)
    requires p in s.pcs && HolderMatches(s, p, s.pcs[p]) && FilesMatch(s, p, s.pcs[p]) && CanWork(s, p, op)
    ensures var t := DoWork(s, p, op); HolderMatches(t, p, t.pcs[p]) && FilesMatch(t, p, t.pcs[p])
  {
  }

  lemma WorkKeepsWork(s: State, p: Id, op: WorkOp)
    requires p in s.pcs && CoordinatorOk(s, p, s.pcs[p]) && CanWork(s, p, op)
    ensures var t := DoWork(s, p, op);
            JobWorkMatches(t, p, t.pcs[p]) && ApplyWorkMatches(t, p, t.pcs[p]) && EvidenceMatches(t, t.pcs[p])
  {
  }

  lemma OtherKeepsFiles(s: State, t: State, p: Id, q: Id)
    requires Inv(s) && Reaches(s, t, p) && q in s.pcs && q != p
    ensures HolderMatches(t, q, t.pcs[q]) && FilesMatch(t, q, t.pcs[q])
  {
  }

  lemma OtherKeepsWork(s: State, t: State, p: Id, q: Id)
    requires Inv(s) && Reaches(s, t, p) && q in s.pcs && q != p
    ensures JobWorkMatches(t, q, t.pcs[q]) && ApplyWorkMatches(t, q, t.pcs[q])
  {
  }

  lemma OtherKeepsEvidence(s: State, t: State, p: Id, q: Id)
    requires Inv(s) && Reaches(s, t, p) && q in s.pcs && q != p
    ensures EvidenceMatches(t, t.pcs[q])
  {
  }

  lemma RemovalKeepsFiles(s: State, p: Id, q: Id)
    requires p in s.pcs && q in s.pcs && HolderMatches(s, q, s.pcs[q]) && FilesMatch(s, q, s.pcs[q])
    requires CanRecover(s, p, RemoveRecord) && TruthfulEvidence(s, s.pcs[p].target)
    ensures var t := DoRecover(s, p, RemoveRecord); HolderMatches(t, q, t.pcs[q]) && FilesMatch(t, q, t.pcs[q])
  {
    if q != s.pcs[p].target {
      RemovalLeavesOthers(s, p, q);
    }
  }

  lemma RemovalLeavesOthers(s: State, p: Id, q: Id)
    requires p in s.pcs && q in s.pcs && FilesMatch(s, q, s.pcs[q])
    requires CanRecover(s, p, RemoveRecord) && q != s.pcs[p].target
    ensures var t := DoRecover(s, p, RemoveRecord); FilesMatch(t, q, t.pcs[q])
  {
  }

  lemma RemovalKeepsWork(s: State, p: Id, q: Id)
    requires p in s.pcs && q in s.pcs && CoordinatorOk(s, p, s.pcs[p]) && CoordinatorOk(s, q, s.pcs[q])
    requires CanRecover(s, p, RemoveRecord)
    ensures var t := DoRecover(s, p, RemoveRecord); JobWorkMatches(t, q, t.pcs[q]) && ApplyWorkMatches(t, q, t.pcs[q])
  {
  }

  lemma RemovalKeepsEvidence(s: State, p: Id, q: Id)
    requires Inv(s) && p in s.pcs && q in s.pcs && CanRecover(s, p, RemoveRecord)
    ensures var t := DoRecover(s, p, RemoveRecord); EvidenceMatches(t, t.pcs[q])
  {
  }

  /** The one step that reaches a record of someone else: recovery of a record whose coordinator is dead. */
  lemma RemoveRecordKeepsInv(s: State, p: Id)
    requires Inv(s) && p in s.pcs && CanRecover(s, p, RemoveRecord)
    ensures Inv(DoRecover(s, p, RemoveRecord))
  {
    var t := DoRecover(s, p, RemoveRecord);
    forall q | q in t.pcs
      ensures CoordinatorOk(t, q, t.pcs[q])
    {
      RemovalKeepsFiles(s, p, q);
      RemovalKeepsWork(s, p, q);
      RemovalKeepsEvidence(s, p, q);
    }
  }

  lemma SpawnReaches(s: State, p: Id, entry: Pc)
    requires Inv(s) && Enabled(s, Spawn(p, entry))
    ensures var t := At(s, p, entry); Reaches(s, t, p) && GlobalOk(t) && CoordinatorOk(t, p, entry)
  {
    assert Fresh(s, p);
  }

  lemma OthersKept(s: State, t: State, p: Id)
    requires Inv(s) && Reaches(s, t, p) && GlobalOk(t) && CoordinatorOk(t, p, t.pcs[p])
    ensures Inv(t)
  {
    forall q | q in t.pcs
      ensures CoordinatorOk(t, q, t.pcs[q])
    {
      if q != p {
        OtherKeepsFiles(s, t, p, q);
        OtherKeepsWork(s, t, p, q);
        OtherKeepsEvidence(s, t, p, q);
      }
    }
  }

  lemma StepReaches(s: State, step: Step)
    requires Inv(s) && Enabled(s, step)
    requires step.OnRecovery? ==> step.recoveryOp != RemoveRecord
    ensures Reaches(s, Do(s, step), step.p) && GlobalOk(Do(s, step))
  {
    match step
    case Spawn(p, entry) => SpawnReaches(s, p, entry);
    case OnLock(p, op) => LockReaches(s, p, op);
    case OnAdmit(p, op) => AdmitReaches(s, p, op);
    case OnJob(p, op) => JobReaches(s, p, op);
    case OnRequest(p, op) => RequestReaches(s, p, op);
    case OnRun(p, op) => RunReaches(s, p, op);
    case OnRecovery(p, op) => RecoveryReaches(s, p, op);
    case OnWork(p, op) =>
      assert p !in s.pcs ==> Fresh(s, p);
      WorkReaches(s, p, op);
  }

  lemma JobKept(s: State, step: Step)
    requires Enabled(s, step) && (step.OnLock? || step.OnAdmit? || step.OnJob?) && CoordinatorOk(s, step.p, s.pcs[step.p])
    ensures var t := Do(s, step); step.p in t.pcs && CoordinatorOk(t, step.p, t.pcs[step.p])
  {
    match step
    case OnLock(p, op) =>
      LockKeepsLocks(s, p, op);
      LockKeepsFiles(s, p, op);
      LockKeepsWork(s, p, op);
    case OnAdmit(p, op) =>
      AdmitKeepsFiles(s, p, op);
      AdmitKeepsWork(s, p, op);
    case OnJob(p, op) =>
      JobKeepsFiles(s, p, op);
      JobKeepsWork(s, p, op);
  }

  lemma RunKept(s: State, step: Step)
    requires Enabled(s, step) && (step.OnRequest? || step.OnRun?) && CoordinatorOk(s, step.p, s.pcs[step.p])
    ensures var t := Do(s, step); step.p in t.pcs && CoordinatorOk(t, step.p, t.pcs[step.p])
  {
    match step
    case OnRequest(p, op) =>
      RequestKeepsFiles(s, p, op);
      RequestKeepsWork(s, p, op);
    case OnRun(p, op) =>
      RunKeepsLocks(s, p, op);
      RunKeepsFiles(s, p, op);
      RunKeepsWork(s, p, op);
  }

  lemma ActorKept(s: State, step: Step)
    requires Enabled(s, step) && !step.Spawn?
    requires if step.p in s.pcs then CoordinatorOk(s, step.p, s.pcs[step.p]) else Fresh(s, step.p)
    ensures var t := Do(s, step); step.p in t.pcs && CoordinatorOk(t, step.p, t.pcs[step.p])
  {
    if step.OnLock? || step.OnAdmit? || step.OnJob? {
      JobKept(s, step);
    } else if step.OnRequest? || step.OnRun? {
      RunKept(s, step);
    } else if step.OnRecovery? {
      RecoveryKeepsFiles(s, step.p, step.recoveryOp);
      RecoveryKeepsWork(s, step.p, step.recoveryOp);
    } else {
      WorkKeepsFiles(s, step.p, step.workOp);
      WorkKeepsWork(s, step.p, step.workOp);
    }
  }

  lemma StepKeepsInv(s: State, step: Step)
    requires Inv(s) && Enabled(s, step)
    ensures Inv(Do(s, step))
  {
    if step.OnRecovery? && step.recoveryOp == RemoveRecord {
      RemoveRecordKeepsInv(s, step.p);
    } else {
      StepReaches(s, step);
      if step.Spawn? {
        SpawnReaches(s, step.p, step.entry);
      } else {
        ActorKept(s, step);
      }
      OthersKept(s, Do(s, step), step.p);
    }
  }

  lemma {:induction false} RunKeepsInv(run: seq<State>, steps: seq<Step>, k: nat)
    requires IsRun(run, steps) && run[0] == Init && k < |run|
    ensures Inv(run[k])
  {
    if k == 0 {
      InitEstablishesInv();
    } else {
      RunKeepsInv(run, steps, k - 1);
      assert Position(k - 1);
      StepKeepsInv(run[k - 1], steps[k - 1]);
    }
  }
}
