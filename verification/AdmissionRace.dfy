/** Who exactly can still be granted authority past an unresolved record: a job that looked at the record before
    its owner died, and that meets nothing stuck in the registrations it has yet to look at. */
module AdmissionRace {
  import opened Runs
  import opened Wrappers
  import opened Admission
  import opened AdmissionInvariant
  import opened AdmissionSafety

  lemma Extend(run: seq<State>, steps: seq<Step>, step: Step) returns (longer: seq<State>, more: seq<Step>)
    requires IsRun(run, steps) && Enabled(run[|steps|], step)
    ensures longer == run + [Do(run[|steps|], step)] && more == steps + [step]
    ensures IsRun(longer, more)
  {
    longer, more := run + [Do(run[|steps|], step)], steps + [step];
    forall k | 0 <= k < |more|
      ensures Enabled(longer[k], more[k]) && longer[k + 1] == Do(longer[k], more[k])
    {
      assert Position(k);
    }
  }

  /** From the end of its probes to the lock on its registration a job meets no further check. */
  lemma FinishAttempt(run: seq<State>, steps: seq<Step>, p: Id) returns (longer: seq<State>, more: seq<Step>)
    requires IsRun(run, steps) && p in run[|steps|].pcs
    requires run[|steps|].pcs[p] == Job(JProbe({})) && run[|steps|].exclusive == None
    ensures IsRun(longer, more) && steps <= more && run <= longer
    ensures forall k :: |steps| <= k < |more| ==> more[k].OnAdmit?
    ensures var s := run[|steps|];
            longer[|more|] == s.(jobs := s.jobs[p := JobFile(Active, true)], shared := s.shared + {p},
                                 granted := s.granted + {p}, pcs := s.pcs[p := Job(JLocked)])
  {
    longer, more := Extend(run, steps, OnAdmit(p, ProbesDone));
    longer, more := Extend(longer, more, OnAdmit(p, TakeShared));
    longer, more := Extend(longer, more, OnAdmit(p, WriteJob));
    longer, more := Extend(longer, more, OnAdmit(p, LockRegistration));
  }

  /** A job alone at the gate is admitted. */
  lemma FirstJobEnters() returns (run: seq<State>, steps: seq<Step>)
    ensures IsRun(run, steps) && run[0] == Init
    ensures run[|steps|] == Init.(jobs := map[0 := JobFile(Active, true)], shared := {0}, granted := {0},
                                  pcs := map[0 := Job(JBody(false))])
    ensures forall k :: 0 <= k < |steps| ==> !steps[k].OnRecovery?
  {
    run, steps := [Init], [];
    run, steps := Extend(run, steps, Spawn(0, Job(JTry)));
    run, steps := Extend(run, steps, OnLock(0, Enter));
    run, steps := Extend(run, steps, OnAdmit(0, ReadMaintenance));
    assert Init.jobs.Keys == {};
    run, steps := FinishAttempt(run, steps, 0);
    run, steps := Extend(run, steps, OnLock(0, Leave));
  }

  /** A second job looks at the first one's registration while the first one is alive. */
  lemma SecondJobLooks() returns (run: seq<State>, steps: seq<Step>)
    ensures IsRun(run, steps) && run[0] == Init
    ensures var s := run[|steps|];
            s.jobs == map[0 := JobFile(Active, true)] && s.shared == {0} && s.granted == {0} &&
            s.exclusive == None && s.maintenance == None && s.admission == Some(1) &&
            s.pcs == map[0 := Job(JBody(false)), 1 := Job(JProbe({}))]
    ensures forall k :: 0 <= k < |steps| ==> !steps[k].OnRecovery?
  {
    run, steps := FirstJobEnters();
    run, steps := Extend(run, steps, Spawn(1, Job(JTry)));
    run, steps := Extend(run, steps, OnLock(1, Enter));
    run, steps := Extend(run, steps, OnAdmit(1, ReadMaintenance));
    assert map[0 := JobFile(Active, true)].Keys == {0};
    assert run[|steps|].pcs[1] == Job(JProbe({0}));
    run, steps := Extend(run, steps, OnAdmit(1, Probe(0)));
    assert {0} - {0} == {};
  }

  lemma AdmittedPastADeadOwner() returns (run: seq<State>, steps: seq<Step>, from: nat)
    ensures IsRun(run, steps) && run[0] == Init && from < |steps|
    ensures Unresolved(run[from], 0) && 1 !in run[from].granted
    ensures forall k :: 0 <= k < |steps| ==> !steps[k].OnRecovery?
    ensures 1 in run[|steps|].granted
  {
    run, steps := SecondJobLooks();
    run, steps := Extend(run, steps, OnLock(0, Crash));
    from := |steps|;
    run, steps := FinishAttempt(run, steps, 1);
  }

  // ---------------------------------------------------------------------------------------------------
  // The exception, exactly

  /** A job that has passed record `i` and finds nothing stuck among the registrations left to probe. */
  ghost predicate Ready(s: State, i: Id, p: Id) {
    Passed(s, i, p) && (s.pcs[p].job.JProbe? ==> forall j :: j in s.pcs[p].job.todo ==> !Stuck(s, j))
  }

  /** A continuation in which nobody reconciles record `i` and `p` is granted authority. */
  ghost predicate Overtakes(run: seq<State>, steps: seq<Step>, longer: seq<State>, more: seq<Step>, i: Id, p: Id) {
    IsRun(run, steps) && IsRun(longer, more) && run <= longer && steps <= more &&
    (forall k :: |steps| <= k < |more| ==> !Recovers(longer[k], more[k], i)) &&
    p in longer[|more|].granted && p !in run[|steps|].granted
  }

  lemma UnlockingKeepsStuck(s: State, q: Id, j: Id)
    requires Stuck(s, j)
    ensures Stuck(DropLocks(s, q), j)
  {
  }

  /** Without the admission lock a step changes a registration only by letting its lock go. */
  lemma WritersHoldAdmission(s: State, step: Step)
    requires Enabled(s, step) && Do(s, step).jobs != s.jobs
    requires step.p in s.pcs && HolderMatches(s, step.p, s.pcs[step.p])
    ensures s.admission == Some(step.p) || Do(s, step).jobs == DropLocks(s, step.p).jobs
  {
    JobWriters(s, step);
  }

  /** While `p` holds the admission lock nobody else repairs or removes a stuck registration. */
  lemma StuckStays(s: State, step: Step, p: Id, j: Id)
    requires Inv(s) && Enabled(s, step) && s.admission == Some(p) && step.p != p && Stuck(s, j)
    ensures Stuck(Do(s, step), j)
  {
    if Do(s, step).jobs != s.jobs {
      JobWriters(s, step);
      WritersHoldAdmission(s, step);
      UnlockingKeepsStuck(s, step.p, j);
    }
  }

  /** A probe that goes on has found the registration not stuck. */
  lemma ReadyBeforeAdmitStep(s: State, i: Id, p: Id, op: AdmitOp)
    requires p in s.pcs && CanAdmit(s, p, op) && Passed(s, i, p) && Ready(DoAdmit(s, p, op), i, p)
    ensures Ready(s, i, p)
  {
    if s.pcs[p].job.JProbe? {
      forall j | j in s.pcs[p].job.todo
        ensures !Stuck(s, j)
      {
        assert op.Probe? && j != op.other ==> j in DoAdmit(s, p, op).pcs[p].job.todo;
      }
    }
  }

  lemma PassedMovesByAdmission(s: State, step: Step, i: Id)
    requires Enabled(s, step) && !step.OnAdmit? && Passed(s, i, step.p) && Passed(Do(s, step), i, step.p)
    ensures Do(s, step).pcs[step.p] == s.pcs[step.p] && Do(s, step).jobs == s.jobs
  {
  }

  lemma NobodyElseGetsReady(s: State, step: Step, i: Id, p: Id)
    requires Inv(s) && Enabled(s, step) && Unresolved(s, i) && Ready(Do(s, step), i, p)
    ensures Ready(s, i, p)
  {
    NobodyElsePasses(s, step, i, p);
    if p == step.p {
      if step.OnAdmit? {
        ReadyBeforeAdmitStep(s, i, p, step.admitOp);
      } else {
        PassedMovesByAdmission(s, step, i);
      }
    } else {
      OnlyActorMoves(s, step, p);
      assert HolderMatches(s, p, s.pcs[p]);
      if s.pcs[p].job.JProbe? {
        forall j | j in s.pcs[p].job.todo
          ensures !Stuck(s, j)
        {
          if Stuck(s, j) {
            StuckStays(s, step, p, j);
          }
        }
      }
    }
  }

  lemma OnlyReadyAreGranted(s: State, step: Step, i: Id, p: Id)
    requires Inv(s) && Enabled(s, step) && Unresolved(s, i)
    requires p in Do(s, step).granted && p !in s.granted
    ensures Ready(s, i, p)
  {
    OnlyPassedAreGranted(s, step, i, p);
    GrantSteps(s, step);
  }

  /** Without a reconciliation of the record no job becomes ready, and only a ready one is granted authority. */
  lemma {:induction false} ReadinessIsNotGained(run: seq<State>, steps: seq<Step>, from: nat, to: nat, i: Id, p: Id)
    requires IsRun(run, steps) && run[0] == Init && from <= to < |run|
    requires Unresolved(run[from], i)
    requires forall k :: from <= k < to ==> !Recovers(run[k], steps[k], i)
    ensures Ready(run[to], i, p) ==> Ready(run[from], i, p)
    ensures p in run[to].granted && p !in run[from].granted ==> Ready(run[from], i, p)
  {
    if from < to {
      ReadinessIsNotGained(run, steps, from, to - 1, i, p);
      UncertaintyIsSticky(run, steps, from, to - 1, i, p);
      RunKeepsInv(run, steps, to - 1);
      assert Position(to - 1);
      ReadinessStep(run[to - 1], steps[to - 1], i, p);
    }
  }

  lemma ReadinessStep(s: State, step: Step, i: Id, p: Id)
    requires Inv(s) && Enabled(s, step) && Unresolved(s, i)
    ensures Ready(Do(s, step), i, p) ==> Ready(s, i, p)
    ensures p in Do(s, step).granted && p !in s.granted ==> Ready(s, i, p)
  {
    if Ready(Do(s, step), i, p) {
      NobodyElseGetsReady(s, step, i, p);
    }
    if p in Do(s, step).granted && p !in s.granted {
      OnlyReadyAreGranted(s, step, i, p);
    }
  }

  predicate BeforeLease(pc: Pc) {
    pc.Job? && (pc.job.JTry? || pc.job.JRead? || pc.job.JBlocked? || pc.job.JProbe? || pc.job.JCleared? ||
                pc.job.JActivity? || pc.job.JWritten?)
  }

  lemma LocksDoNotUndoLeases(s: State, p: Id, op: LockOp)
    requires p in s.pcs && CanLock(s, p, op) && BeforeLease(DoLock(s, p, op).pcs[p])
    ensures BeforeLease(s.pcs[p])
  {
  }

  lemma JobsDoNotUndoLeases(s: State, p: Id, op: JobOp)
    requires p in s.pcs && CanJob(s, p, op)
    ensures !BeforeLease(DoJob(s, p, op).pcs[p])
  {
  }

  lemma RunsAreNoJobs(s: State, p: Id, op: RunOp)
    requires p in s.pcs && CanRun(s, p, op)
    ensures !DoRun(s, p, op).pcs[p].Job?
  {
  }

  lemma LeaseIsNotUndone(s: State, step: Step)
    requires Enabled(s, step) && step.p in Do(s, step).pcs && BeforeLease(Do(s, step).pcs[step.p])
    ensures step.Spawn? || (step.p in s.pcs && BeforeLease(s.pcs[step.p]))
  {
    match step
    case Spawn(_, _) =>
    case OnLock(p, op) => LocksDoNotUndoLeases(s, p, op);
    case OnAdmit(_, _) =>
    case OnJob(p, op) => JobsDoNotUndoLeases(s, p, op);
    case OnRequest(_, _) =>
    case OnRun(p, op) => RunsAreNoJobs(s, p, op);
    case OnRecovery(_, _) =>
    case OnWork(_, _) =>
  }

  lemma GrantsReachActor(s: State, step: Step, p: Id)
    requires Enabled(s, step) && p != step.p
    ensures p in Do(s, step).granted <==> p in s.granted
  {
    GrantSteps(s, step);
  }

  /** A job has no authority before it has its lease. */
  lemma {:induction false} NoAuthorityBeforeLease(run: seq<State>, steps: seq<Step>, k: nat, p: Id)
    requires IsRun(run, steps) && run[0] == Init && k < |run|
    requires p in run[k].pcs && BeforeLease(run[k].pcs[p])
    ensures p !in run[k].granted
  {
    if k > 0 {
      RunKeepsInv(run, steps, k - 1);
      assert Position(k - 1);
      var step := steps[k - 1];
      if p == step.p {
        LeaseIsNotUndone(run[k - 1], step);
        GrantSteps(run[k - 1], step);
      } else {
        OnlyActorMoves(run[k - 1], step, p);
        GrantsReachActor(run[k - 1], step, p);
      }
      if p in run[k - 1].pcs {
        NoAuthorityBeforeLease(run, steps, k - 1, p);
      } else {
        assert Fresh(run[k - 1], p);
      }
    }
  }

  /** How many steps a job inside its attempt is from its lease. */
  function Distance(pc: JobPc): (n: nat) {
    match pc
    case JProbe(todo) => 4 + |todo|
    case JCleared => 3
    case JActivity => 2
    case _ => 1
  }

  /** A ready job is never stopped: its next step leaves it ready and nearer, or is the last one. */
  lemma AdmitOpOfReady(s: State, i: Id, p: Id) returns (op: AdmitOp)
    requires Ready(s, i, p) && s.exclusive == None && (s.pcs[p].job.JWritten? ==> p in s.jobs)
    ensures CanAdmit(s, p, op)
    ensures var t := DoAdmit(s, p, op);
            if op == LockRegistration then p in t.granted
            else Ready(t, i, p) && t.exclusive == None && Distance(t.pcs[p].job) < Distance(s.pcs[p].job) &&
                 (t.pcs[p].job.JWritten? ==> p in t.jobs)
  {
    match s.pcs[p].job
    case JProbe(todo) =>
      if todo == {} {
        op := ProbesDone;
      } else {
        var j :| j in todo;
        op := Probe(j);
        assert |todo - {j}| < |todo|;
      }
    case JCleared => op := TakeShared;
    case JActivity => op := WriteJob;
    case JWritten => op := LockRegistration;
  }

  /** Nothing in the way: the lease comes by steps of the job alone. */
  lemma {:induction false} AloneToLease(run: seq<State>, steps: seq<Step>, i: Id, p: Id)
    returns (longer: seq<State>, more: seq<Step>)
    requires IsRun(run, steps) && Ready(run[|steps|], i, p) && run[|steps|].exclusive == None
    requires run[|steps|].pcs[p].job.JWritten? ==> p in run[|steps|].jobs
    ensures IsRun(longer, more) && run <= longer && steps <= more
    ensures forall k :: |steps| <= k < |more| ==> more[k].OnAdmit?
    ensures p in longer[|more|].granted
    decreases Distance(run[|steps|].pcs[p].job)
  {
    var s := run[|steps|];
    var op := AdmitOpOfReady(s, i, p);
    longer, more := Extend(run, steps, OnAdmit(p, op));
    if op != LockRegistration {
      longer, more := AloneToLease(longer, more, i, p);
    }
  }

  /** The exclusive lock cannot keep the job out: its holder is no job, and when it dies its lock is free. */
  lemma ExclusiveCanEnd(run: seq<State>, steps: seq<Step>, p: Id) returns (longer: seq<State>, more: seq<Step>)
    requires IsRun(run, steps) && run[0] == Init && p in run[|steps|].pcs && run[|steps|].pcs[p].Job?
    ensures IsRun(longer, more) && run <= longer && steps <= more
    ensures forall k :: |steps| <= k < |more| ==> more[k].OnLock?
    ensures var s, t := run[|steps|], longer[|more|];
            t.exclusive == None && t.jobs == s.jobs && p in t.pcs && t.pcs[p] == s.pcs[p]
  {
    longer, more := run, steps;
    RunKeepsInv(run, steps, |steps|);
    var s := run[|steps|];
    if s.exclusive.Some? {
      var q := s.exclusive.value;
      assert q !in s.pcs ==> Fresh(s, q);
      assert HolderMatches(s, q, s.pcs[q]) && HolderMatches(s, p, s.pcs[p]);
      longer, more := Extend(run, steps, OnLock(q, Crash));
    }
  }

  lemma ReadyCanBeGranted(run: seq<State>, steps: seq<Step>, i: Id, p: Id) returns (longer: seq<State>, more: seq<Step>)
    requires IsRun(run, steps) && run[0] == Init && Ready(run[|steps|], i, p)
    ensures Overtakes(run, steps, longer, more, i, p)
    ensures forall k :: |steps| <= k < |more| ==> !more[k].OnRecovery?
  {
    RunKeepsInv(run, steps, |steps|);
    NoAuthorityBeforeLease(run, steps, |steps|, p);
    assert FilesMatch(run[|steps|], p, run[|steps|].pcs[p]);
    longer, more := ExclusiveCanEnd(run, steps, p);
    longer, more := AloneToLease(longer, more, i, p);
  }

  /** Job `p` can still be granted authority before anybody reconciles record `i` exactly when it has passed that
      record and nothing it has yet to probe is stuck. */
  lemma OvertakingExactly(run: seq<State>, steps: seq<Step>, i: Id, p: Id)
    requires IsRun(run, steps) && run[0] == Init && Unresolved(run[|steps|], i)
    ensures (exists longer, more :: Overtakes(run, steps, longer, more, i, p)) <==> Ready(run[|steps|], i, p)
  {
    if Ready(run[|steps|], i, p) {
      var longer, more := ReadyCanBeGranted(run, steps, i, p);
    }
    forall longer, more | Overtakes(run, steps, longer, more, i, p)
      ensures Ready(run[|steps|], i, p)
    {
      ReadinessIsNotGained(longer, more, |steps|, |more|, i, p);
    }
  }

  /** Past a maintenance record, or a registration marked uncertain by its owner, nobody is granted authority. */
  lemma NobodyOvertakesMarked(run: seq<State>, steps: seq<Step>, longer: seq<State>, more: seq<Step>, i: Id, p: Id)
    requires IsRun(run, steps) && run[0] == Init && Unresolved(run[|steps|], i)
    requires OwnsMaintenance(run[|steps|], i) || (i in run[|steps|].jobs && run[|steps|].jobs[i].phase == Uncertain)
    ensures !Overtakes(run, steps, longer, more, i, p)
  {
    OvertakingExactly(run, steps, i, p);
    RunKeepsInv(run, steps, |steps|);
    if Ready(run[|steps|], i, p) {
      PassedHoldsAdmission(run, steps, |steps|, i, p);
    }
  }
}
