/** What the admission gate promises over every run: any number of coordinators, any interleaving,
    and a crash after any step. */
module AdmissionSafety {
  import opened Runs
  import opened Wrappers
  import opened Admission
  import opened AdmissionInvariant

  /** Work that may be changing the daemon always has its record, and that record names an apply container. */
  lemma RunningWorkHasRecord(run: seq<State>, steps: seq<Step>, k: nat, i: Id)
    requires IsRun(run, steps) && run[0] == Init && k < |run|
    ensures JobRunning(run[k], i) ==> i in run[k].jobs && i in run[k].granted
    ensures ApplyRunning(run[k], i) ==>
              OwnsMaintenance(run[k], i) && run[k].maintenance.value.named && i in run[k].granted && run[k].jobs == map[]
  {
    RunKeepsInv(run, steps, k);
    assert i !in run[k].pcs ==> Fresh(run[k], i);
  }

  /** No job works on the daemon while an apply container does, and at most one apply container does. */
  lemma WorkNeverOverlaps(run: seq<State>, steps: seq<Step>, k: nat, i: Id, m: Id)
    requires IsRun(run, steps) && run[0] == Init && k < |run|
    requires ApplyRunning(run[k], m)
    ensures !JobRunning(run[k], i)
    ensures ApplyRunning(run[k], i) ==> i == m
  {
    RunningWorkHasRecord(run, steps, k, i);
    RunningWorkHasRecord(run, steps, k, m);
  }

  /** Authority of a maintenance run: granted, and its activity lock not yet released. This includes the
      time after its record is removed and before the descriptor closes. */
  predicate Exclusive(s: State, m: Id) {
    m in s.granted && s.exclusive == Some(m)
  }

  /** A lease that is still open: granted, and holding the activity lock, shared or exclusive. */
  predicate LiveLease(s: State, i: Id) {
    i in s.granted && (i in s.shared || s.exclusive == Some(i))
  }

  lemma ExclusiveMeansAlone(run: seq<State>, steps: seq<Step>, k: nat, m: Id, i: Id)
    requires IsRun(run, steps) && run[0] == Init && k < |run|
    requires Exclusive(run[k], m)
    ensures run[k].jobs == map[]
    ensures LiveLease(run[k], i) <==> i == m
  {
    RunKeepsInv(run, steps, k);
  }

  lemma LocksGrantNothing(s: State, p: Id, op: LockOp)
    requires p in s.pcs && CanLock(s, p, op)
    ensures DoLock(s, p, op).granted == s.granted
  {
  }

  lemma JobsGrantNothing(s: State, p: Id, op: JobOp)
    requires p in s.pcs && CanJob(s, p, op)
    ensures DoJob(s, p, op).granted == s.granted
  {
  }

  lemma RecoveryGrantsNothing(s: State, p: Id, op: RecoveryOp)
    requires p in s.pcs && CanRecover(s, p, op)
    ensures DoRecover(s, p, op).granted == s.granted
  {
  }

  /** Authority is granted in two places only. */
  lemma GrantSteps(s: State, step: Step)
    requires Enabled(s, step)
    ensures Do(s, step).granted != s.granted ==>
              step == OnAdmit(step.p, LockRegistration) || step == OnRequest(step.p, Grant)
  {
    match step
    case Spawn(_, _) =>
    case OnLock(p, op) => LocksGrantNothing(s, p, op);
    case OnAdmit(_, _) =>
    case OnJob(p, op) => JobsGrantNothing(s, p, op);
    case OnRequest(_, _) =>
    case OnRun(_, _) =>
    case OnRecovery(p, op) => RecoveryGrantsNothing(s, p, op);
    case OnWork(_, _) =>
  }

  lemma GrantsNeedTheLock(s: State, step: Step, m: Id)
    requires Inv(s) && Enabled(s, step) && Exclusive(s, m)
    ensures Do(s, step).granted == s.granted
  {
    GrantSteps(s, step);
  }

  /** From the grant until the activity lock is released no registration is written and nobody else is
      granted authority, whatever the others do in between. */
  lemma {:induction false} ExclusiveWindow(run: seq<State>, steps: seq<Step>, from: nat, to: nat, m: Id)
    requires IsRun(run, steps) && run[0] == Init && from <= to < |run|
    requires forall k :: from <= k <= to ==> Exclusive(run[k], m)
    ensures run[to].granted == run[from].granted
    ensures forall k :: from <= k <= to ==> run[k].jobs == map[]
  {
    ExclusiveMeansAlone(run, steps, to, m, m);
    if from < to {
      ExclusiveWindow(run, steps, from, to - 1, m);
      RunKeepsInv(run, steps, to - 1);
      assert Position(to - 1);
      GrantsNeedTheLock(run[to - 1], steps[to - 1], m);
    }
  }

  /** Before a coordinator removes its record by identifier it is there: `_remove` never refuses. */
  lemma OwnRecordIsFound(run: seq<State>, steps: seq<Step>, k: nat, p: Id)
    requires IsRun(run, steps) && run[0] == Init && k < |run| && p in run[k].pcs
    ensures run[k].pcs[p] == Job(JSettle(true)) ==> p in run[k].jobs
    ensures run[k].pcs[p] == Run(MWithdraw) ==> OwnsMaintenance(run[k], p)
    ensures run[k].pcs[p].Run? && run[k].pcs[p].run.MSettle? ==> OwnsMaintenance(run[k], p)
    ensures run[k].pcs[p].Recovery? && run[k].pcs[p].recovery.RAudited? ==> Present(run[k], run[k].pcs[p].target)
  {
    RunKeepsInv(run, steps, k);
  }

  predicate Recovers(s: State, step: Step, i: Id) {
    step.OnRecovery? && step.recoveryOp == RemoveRecord &&
    step.p in s.pcs && s.pcs[step.p].Recovery? && s.pcs[step.p].target == i
  }

  /** The three ways a record may leave: its owner knows the work is over, its owner was refused and
      never had authority, or an operator's audit of it is already on disk. */
  predicate Explained(s: State, step: Step, i: Id) {
    !JobRunning(s, i) && !ApplyRunning(s, i) && i in s.pcs &&
    ((step == OnJob(i, SettleJob) && s.pcs[i] == Job(JSettle(true))) ||
     (step == OnRun(i, SettleRun) && s.pcs[i].Run? && s.pcs[i].run.MSettle? && s.pcs[i].run.known) ||
     (step == OnRequest(i, Withdraw) && i !in s.granted) ||
     (Recovers(s, step, i) && i in s.audits && s.pcs[i] == Gone))
  }

  lemma RemovalSteps(s: State, step: Step, i: Id)
    requires Enabled(s, step)
    requires Present(s, i) && !Present(Do(s, step), i)
    ensures step == OnJob(step.p, SettleJob) || step == OnRun(step.p, SettleRun) ||
            step == OnRun(step.p, NameContainer) || step == OnRequest(step.p, Withdraw) ||
            step == OnRequest(step.p, Grant) || step == OnRecovery(step.p, RemoveRecord)
  {
  }

  lemma JobRecordLeaves(s: State, p: Id, i: Id)
    requires p in s.pcs && CoordinatorOk(s, p, s.pcs[p]) && CanJob(s, p, SettleJob)
    requires Present(s, i) && !Present(DoJob(s, p, SettleJob), i)
    ensures Explained(s, OnJob(p, SettleJob), i)
  {
  }

  lemma RunRecordLeaves(s: State, p: Id, op: RunOp, i: Id)
    requires p in s.pcs && CoordinatorOk(s, p, s.pcs[p]) && CanRun(s, p, op) && i in s.pcs && CoordinatorOk(s, i, s.pcs[i])
    requires Present(s, i) && !Present(DoRun(s, p, op), i)
    ensures Explained(s, OnRun(p, op), i)
  {
  }

  lemma RequestRecordLeaves(s: State, p: Id, op: RequestOp, i: Id)
    requires p in s.pcs && CoordinatorOk(s, p, s.pcs[p]) && CanRequest(s, p, op) && i in s.pcs && CoordinatorOk(s, i, s.pcs[i])
    requires Present(s, i) && !Present(DoRequest(s, p, op), i)
    ensures Explained(s, OnRequest(p, op), i)
  {
  }

  lemma RecoveredRecordLeaves(s: State, p: Id, i: Id)
    requires p in s.pcs && CoordinatorOk(s, p, s.pcs[p]) && CanRecover(s, p, RemoveRecord)
    requires Present(s, i) && !Present(DoRecover(s, p, RemoveRecord), i)
    ensures Explained(s, OnRecovery(p, RemoveRecord), i)
  {
  }

  lemma RecordLeavesExplained(s: State, step: Step, i: Id)
    requires Inv(s) && Enabled(s, step)
    requires Present(s, i) && !Present(Do(s, step), i)
    ensures Explained(s, step, i)
  {
    RemovalSteps(s, step, i);
    assert i !in s.pcs ==> Fresh(s, i);
    if step.OnJob? {
      JobRecordLeaves(s, step.p, i);
    } else if step.OnRun? {
      RunRecordLeaves(s, step.p, step.runOp, i);
    } else if step.OnRequest? {
      RequestRecordLeaves(s, step.p, step.requestOp, i);
    } else {
      RecoveredRecordLeaves(s, step.p, i);
    }
  }

  /** No record is lost silently: between a state where it is on disk and one where it is not, some
      step removed it for one of the three reasons. */
  lemma {:induction false} NothingLost(run: seq<State>, steps: seq<Step>, from: nat, to: nat, i: Id) returns (k: nat)
    requires IsRun(run, steps) && run[0] == Init && from <= to < |run|
    requires Present(run[from], i) && !Present(run[to], i)
    ensures from <= k < to && Present(run[k], i) && Explained(run[k], steps[k], i)
  {
    if Present(run[to - 1], i) {
      k := to - 1;
      RunKeepsInv(run, steps, k);
      assert Position(k);
      RecordLeavesExplained(run[k], steps[k], i);
    } else {
      k := NothingLost(run, steps, from, to - 1, i);
    }
  }

  /** A record that says its work is unresolved: marked uncertain, or left by a dead coordinator. */
  predicate Unresolved(s: State, i: Id) {
    i in s.pcs &&
    ((i in s.jobs && (s.jobs[i].phase == Uncertain || s.pcs[i] == Gone)) ||
     (OwnsMaintenance(s, i) && (s.maintenance.value.phase == Uncertain || s.pcs[i] == Gone)))
  }

  /** A job that has looked at registration `i`, found nothing wrong, and may still be admitted. */
  predicate Passed(s: State, i: Id, p: Id) {
    p in s.pcs && s.pcs[p].Job? &&
    ((s.pcs[p].job.JProbe? && i !in s.pcs[p].job.todo) ||
     s.pcs[p].job.JCleared? || s.pcs[p].job.JActivity? || s.pcs[p].job.JWritten?)
  }

  /** The points where a living coordinator has marked its own record uncertain. */
  predicate Marked(pc: Pc) {
    pc in {Job(JSettled(false)), Job(JClose(false)), Run(MSettled(false)), Run(MClose(false))}
  }

  lemma UncertainOwnerIsDone(s: State, p: Id)
    requires p in s.pcs && CoordinatorOk(s, p, s.pcs[p]) && Unresolved(s, p) && s.pcs[p] != Gone
    ensures Marked(s.pcs[p])
  {
  }

  lemma MarkedOwnerCloses(s: State, step: Step)
    requires step.p in s.pcs && Marked(s.pcs[step.p]) && Enabled(s, step) && !step.OnLock? && !step.OnWork?
    ensures step == OnJob(step.p, CloseJob) || step == OnRun(step.p, CloseRun)
  {
  }

  lemma MarkedOwnerLocks(s: State, p: Id, op: LockOp)
    requires p in s.pcs && Marked(s.pcs[p]) && Unresolved(s, p) && CanLock(s, p, op)
    ensures Unresolved(DoLock(s, p, op), p)
  {
  }

  /** The owner of an uncertain record does nothing more to it. */
  lemma UncertainOwnerStops(s: State, step: Step)
    requires Inv(s) && Enabled(s, step) && Unresolved(s, step.p) && s.pcs[step.p] != Gone
    ensures Unresolved(Do(s, step), step.p)
  {
    UncertainOwnerIsDone(s, step.p);
    if step.OnLock? {
      MarkedOwnerLocks(s, step.p, step.lockOp);
    } else if !step.OnWork? {
      MarkedOwnerCloses(s, step);
    }
  }

  lemma OthersLeaveUnresolved(s: State, t: State, p: Id, i: Id)
    requires Inv(s) && Reaches(s, t, p) && Unresolved(s, i) && (p == i ==> s.pcs[i] == Gone)
    ensures Unresolved(t, i)
  {
  }

  lemma UnresolvedStays(s: State, step: Step, i: Id)
    requires Inv(s) && Enabled(s, step) && Unresolved(s, i) && !Recovers(s, step, i)
    ensures Unresolved(Do(s, step), i)
  {
    if step.OnRecovery? && step.recoveryOp == RemoveRecord {
    } else if step.p == i && s.pcs[i] != Gone {
      UncertainOwnerStops(s, step);
    } else {
      StepReaches(s, step);
      OthersLeaveUnresolved(s, Do(s, step), step.p, i);
    }
  }

  lemma OnlyActorMoves(s: State, step: Step, q: Id)
    requires Inv(s) && Enabled(s, step) && q != step.p
    ensures q in Do(s, step).pcs <==> q in s.pcs
    ensures q in s.pcs ==> Do(s, step).pcs[q] == s.pcs[q]
  {
    if step.OnRecovery? && step.recoveryOp == RemoveRecord {
    } else {
      StepReaches(s, step);
    }
  }

  /** A job inside its admission attempt moves on through the admission code only. */
  lemma PassesInAdmission(s: State, step: Step, i: Id)
    requires Enabled(s, step) && Passed(Do(s, step), i, step.p)
    ensures step.OnAdmit? || Passed(s, i, step.p)
  {
  }

  lemma NobodyElsePasses(s: State, step: Step, i: Id, p: Id)
    requires Inv(s) && Enabled(s, step) && Unresolved(s, i) && Passed(Do(s, step), i, p)
    ensures Passed(s, i, p)
  {
    if p != step.p {
      OnlyActorMoves(s, step, p);
    } else {
      PassesInAdmission(s, step, i);
    }
  }

  lemma OnlyPassedAreGranted(s: State, step: Step, i: Id, p: Id)
    requires Inv(s) && Enabled(s, step) && Unresolved(s, i)
    requires p in Do(s, step).granted && p !in s.granted
    ensures Passed(s, i, p)
  {
    GrantSteps(s, step);
  }

  /** Uncertainty is sticky: until a reconciliation names it, an unresolved record stays unresolved,
      and nobody is granted authority except a job that had already passed it inside its own
      critical section. */
  lemma {:induction false} UncertaintyIsSticky(run: seq<State>, steps: seq<Step>, from: nat, to: nat, i: Id, p: Id)
    requires IsRun(run, steps) && run[0] == Init && from <= to < |run|
    requires Unresolved(run[from], i)
    requires forall k :: from <= k < to ==> !Recovers(run[k], steps[k], i)
    ensures Unresolved(run[to], i)
    ensures Passed(run[to], i, p) ==> Passed(run[from], i, p)
    ensures p in run[to].granted && p !in run[from].granted ==> Passed(run[from], i, p)
  {
    if from < to {
      UncertaintyIsSticky(run, steps, from, to - 1, i, p);
      StickyStep(run, steps, to - 1, i, p);
    }
  }

  lemma StickyStep(run: seq<State>, steps: seq<Step>, k: nat, i: Id, p: Id)
    requires IsRun(run, steps) && run[0] == Init && k < |steps|
    requires Unresolved(run[k], i) && !Recovers(run[k], steps[k], i)
    ensures Unresolved(run[k + 1], i)
    ensures Passed(run[k + 1], i, p) ==> Passed(run[k], i, p)
    ensures p in run[k + 1].granted && p !in run[k].granted ==> Passed(run[k], i, p)
  {
    RunKeepsInv(run, steps, k);
    assert Position(k);
    UnresolvedStays(run[k], steps[k], i);
    if Passed(run[k + 1], i, p) {
      NobodyElsePasses(run[k], steps[k], i, p);
    }
    if p in run[k + 1].granted && p !in run[k].granted {
      OnlyPassedAreGranted(run[k], steps[k], i, p);
    }
  }

  /** A living job's registration is active until it is marked uncertain, and a dead one's is unlocked. */
  lemma NotActiveIsStuck(s: State, i: Id)
    requires Inv(s) && i in s.jobs && s.jobs[i].phase != Active
    ensures Stuck(s, i)
  {
    assert i !in s.pcs ==> Fresh(s, i);
  }

  lemma StuckIsNotPassed(s: State, p: Id, op: AdmitOp, i: Id)
    requires p in s.pcs && CanAdmit(s, p, op) && Stuck(s, i) && Passed(DoAdmit(s, p, op), i, p)
    ensures Passed(s, i, p)
  {
  }

  /** A job that has passed a registration holds the admission lock, so its owner cannot mark it now. */
  lemma PassedExcludesMarking(s: State, i: Id, p: Id)
    requires Inv(s) && i in s.pcs && CanJob(s, i, SettleJob)
    ensures !Passed(s, i, p) && !Passed(DoJob(s, i, SettleJob), i, i)
  {
    assert HolderMatches(s, i, s.pcs[i]);
    assert p in s.pcs ==> HolderMatches(s, p, s.pcs[p]);
  }

  /** While a job is inside its attempt, the registrations it has passed are not marked uncertain. */
  lemma PassedStayActive(s: State, step: Step, i: Id, p: Id)
    requires Inv(s) && Enabled(s, step)
    requires i in s.jobs && Passed(s, i, p) ==> s.jobs[i].phase == Active
    requires i in Do(s, step).jobs && Passed(Do(s, step), i, p)
    ensures Do(s, step).jobs[i].phase == Active
  {
    if Do(s, step).jobs[i].phase != Active {
      MarkingSteps(s, step, i);
      if step == OnJob(i, SettleJob) {
        PassedExcludesMarking(s, i, p);
      } else {
        NotActiveIsStuck(s, i);
      }
      if p != step.p {
        OnlyActorMoves(s, step, p);
      } else if step.OnAdmit? {
        StuckIsNotPassed(s, p, step.admitOp, i);
      } else {
        PassesInAdmission(s, step, i);
      }
    }
  }

  lemma LocksKeepJobs(s: State, p: Id, op: LockOp)
    requires p in s.pcs && CanLock(s, p, op) && op != Crash
    ensures DoLock(s, p, op).jobs == s.jobs
  {
  }

  lemma RunsKeepJobs(s: State, p: Id, op: RunOp)
    requires p in s.pcs && CanRun(s, p, op) && op != CloseRun
    ensures DoRun(s, p, op).jobs == s.jobs
  {
  }

  lemma RequestsKeepJobs(s: State, p: Id, op: RequestOp)
    requires p in s.pcs && CanRequest(s, p, op)
    ensures DoRequest(s, p, op).jobs == s.jobs
  {
  }

  lemma RecoveriesKeepJobs(s: State, p: Id, op: RecoveryOp)
    requires p in s.pcs && CanRecover(s, p, op) && op != RemoveRecord
    ensures DoRecover(s, p, op).jobs == s.jobs
  {
  }

  lemma WorkKeepsJobs(s: State, p: Id, op: WorkOp)
    requires CanWork(s, p, op)
    ensures DoWork(s, p, op).jobs == s.jobs
  {
  }

  /** Registrations are written in seven places only. */
  lemma JobWriters(s: State, step: Step)
    requires Enabled(s, step) && Do(s, step).jobs != s.jobs
    ensures step == OnLock(step.p, Crash) || step == OnAdmit(step.p, WriteJob) ||
            step == OnAdmit(step.p, LockRegistration) || step == OnJob(step.p, SettleJob) ||
            step == OnJob(step.p, CloseJob) || step == OnRun(step.p, CloseRun) ||
            step == OnRecovery(step.p, RemoveRecord)
  {
    match step
    case Spawn(_, _) =>
    case OnLock(p, op) => if op != Crash { LocksKeepJobs(s, p, op); }
    case OnAdmit(_, _) =>
    case OnJob(_, _) =>
    case OnRequest(p, op) => RequestsKeepJobs(s, p, op);
    case OnRun(p, op) => if op != CloseRun { RunsKeepJobs(s, p, op); }
    case OnRecovery(p, op) => if op != RemoveRecord { RecoveriesKeepJobs(s, p, op); }
    case OnWork(p, op) => WorkKeepsJobs(s, p, op);
  }

  lemma MarkingSteps(s: State, step: Step, i: Id)
    requires Enabled(s, step) && i in Do(s, step).jobs && Do(s, step).jobs[i].phase != Active
    ensures step == OnJob(i, SettleJob) || (i in s.jobs && s.jobs[i].phase == Do(s, step).jobs[i].phase)
  {
    if Do(s, step).jobs != s.jobs {
      JobWriters(s, step);
    }
  }

  lemma {:induction false} PassedAreActive(run: seq<State>, steps: seq<Step>, k: nat, i: Id, p: Id)
    requires IsRun(run, steps) && run[0] == Init && k < |run|
    ensures i in run[k].jobs && Passed(run[k], i, p) ==> run[k].jobs[i].phase == Active
  {
    if k > 0 && i in run[k].jobs && Passed(run[k], i, p) {
      PassedAreActive(run, steps, k - 1, i, p);
      RunKeepsInv(run, steps, k - 1);
      assert Position(k - 1);
      PassedStayActive(run[k - 1], steps[k - 1], i, p);
    }
  }

  /** The exception is at most one job, the holder of the admission lock, and there is none when the
      record is a maintenance record or was marked uncertain by its owner. */
  lemma PassedHoldsAdmission(run: seq<State>, steps: seq<Step>, k: nat, i: Id, p: Id)
    requires IsRun(run, steps) && run[0] == Init && k < |run|
    requires Unresolved(run[k], i) && Passed(run[k], i, p)
    ensures run[k].admission == Some(p)
    ensures i in run[k].jobs && run[k].jobs[i].phase == Active && run[k].pcs[i] == Gone
  {
    RunKeepsInv(run, steps, k);
    PassedAreActive(run, steps, k, i, p);
  }

  /** A maintenance run, refused or not, never touches a record of anybody else. */
  lemma MaintenanceTouchesOwnRecordOnly(s: State, step: Step, i: Id)
    requires Inv(s) && Enabled(s, step) && step.p in s.pcs && s.pcs[step.p].Run? && i != step.p
    ensures i in Do(s, step).jobs <==> i in s.jobs
    ensures i in s.jobs ==> Do(s, step).jobs[i] == s.jobs[i]
    ensures OwnsMaintenance(s, i) ==> Do(s, step).maintenance == s.maintenance
    ensures OwnsMaintenance(Do(s, step), i) ==> OwnsMaintenance(s, i)
  {
    StepReaches(s, step);
  }

  /** The record of a granted run is no longer the active one. */
  predicate Revoked(s: State, m: Id) {
    m in s.granted && !(OwnsMaintenance(s, m) && s.maintenance.value.phase == Active)
  }

  lemma RequestersAreNotGranted(s: State, m: Id, op: RequestOp)
    requires m in s.pcs && CoordinatorOk(s, m, s.pcs[m]) && CanRequest(s, m, op)
    ensures m !in s.granted
  {
  }

  lemma RevokedRunStops(s: State, m: Id, op: RunOp)
    requires m in s.pcs && CoordinatorOk(s, m, s.pcs[m]) && CanRun(s, m, op) && Revoked(s, m)
    ensures Revoked(DoRun(s, m, op), m)
  {
  }

  lemma LocksKeepMaintenance(s: State, step: Step)
    requires Enabled(s, step) && (step.Spawn? || step.OnLock?)
    ensures Do(s, step).maintenance == s.maintenance
  {
  }

  lemma JobsKeepMaintenance(s: State, step: Step)
    requires Enabled(s, step) && (step.OnAdmit? || step.OnJob? || step.OnWork?)
    ensures Do(s, step).maintenance == s.maintenance
  {
  }

  lemma RevokedOwnerStops(s: State, m: Id, step: Step)
    requires Inv(s) && Enabled(s, step) && step.p == m && Revoked(s, m)
    ensures Revoked(Do(s, step), m)
  {
    if step.OnRequest? {
      RequestersAreNotGranted(s, m, step.requestOp);
      assert false;
    } else if step.OnRun? {
      RevokedRunStops(s, m, step.runOp);
    } else if !step.OnRecovery? {
      StepReaches(s, step);
      if step.Spawn? || step.OnLock? {
        LocksKeepMaintenance(s, step);
      } else {
        JobsKeepMaintenance(s, step);
      }
    }
  }

  lemma OthersLeaveRevoked(s: State, t: State, p: Id, m: Id)
    requires Inv(s) && Reaches(s, t, p) && Revoked(s, m) && p != m
    ensures Revoked(t, m)
  {
  }

  lemma RevocationStays(s: State, step: Step, m: Id)
    requires Inv(s) && Enabled(s, step) && Revoked(s, m)
    ensures Revoked(Do(s, step), m)
  {
    if step.p == m {
      RevokedOwnerStops(s, m, step);
    } else if step.OnRecovery? && step.recoveryOp == RemoveRecord {
    } else {
      StepReaches(s, step);
      OthersLeaveRevoked(s, Do(s, step), step.p, m);
    }
  }

  /** Once a granted run's record is not active under its identifier, it never is again. */
  lemma {:induction false} RevokedRecordNeverReturns(run: seq<State>, steps: seq<Step>, from: nat, to: nat, m: Id)
    requires IsRun(run, steps) && run[0] == Init && from <= to < |run|
    requires Revoked(run[from], m)
    ensures Revoked(run[to], m)
  {
    if from < to {
      RevokedRecordNeverReturns(run, steps, from, to - 1, m);
      RunKeepsInv(run, steps, to - 1);
      assert Position(to - 1);
      RevocationStays(run[to - 1], steps[to - 1], m);
    }
  }

  lemma DeadWritesNothing(s: State, t: State, p: Id, i: Id)
    requires Inv(s) && Reaches(s, t, p) && i in s.pcs && s.pcs[i] == Gone && !Present(s, i)
    ensures i in t.pcs && t.pcs[i] == Gone && !Present(t, i)
    ensures i in s.audits ==> i in t.audits
  {
  }

  lemma RemovalOnlyRemoves(s: State, p: Id, i: Id)
    requires p in s.pcs && CanRecover(s, p, RemoveRecord)
    requires i in s.pcs && s.pcs[i] == Gone && !Present(s, i)
    ensures var t := DoRecover(s, p, RemoveRecord);
            i in t.pcs && t.pcs[i] == Gone && !Present(t, i) && t.audits == s.audits
  {
  }

  /** A record removed after its coordinator died does not come back, and an audit does not go away. */
  lemma {:induction false} RemovedStaysRemoved(run: seq<State>, steps: seq<Step>, from: nat, to: nat, i: Id)
    requires IsRun(run, steps) && run[0] == Init && from <= to < |run|
    requires i in run[from].pcs && run[from].pcs[i] == Gone && !Present(run[from], i)
    ensures i in run[to].pcs && run[to].pcs[i] == Gone && !Present(run[to], i)
    ensures i in run[from].audits ==> i in run[to].audits
  {
    if from < to {
      RemovedStaysRemoved(run, steps, from, to - 1, i);
      RunKeepsInv(run, steps, to - 1);
      assert Position(to - 1);
      var step := steps[to - 1];
      assert run[to] == Do(run[to - 1], step);
      if step.OnRecovery? && step.recoveryOp == RemoveRecord {
        RemovalOnlyRemoves(run[to - 1], step.p, i);
      } else {
        StepReaches(run[to - 1], step);
        DeadWritesNothing(run[to - 1], run[to], step.p, i);
      }
    }
  }
}
