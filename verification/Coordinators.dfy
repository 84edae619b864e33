/** The coordinators as the programs they are: a job, a maintenance run and a reconciliation execute
    their file and lock operations in order, with everybody else's steps in between and the
    possibility of death at each pause. Each program is shown to produce a run of the step machine, so
    what holds over all runs holds at every moment of every such execution. */
module Coordinators {
  import opened Runs
  import opened Wrappers
  import opened Admission
  import opened AdmissionInvariant
  import opened AdmissionSafety

  datatype Life = Alive | Dead {
    predicate IsFailure() {
      Dead?
    }

    function PropagateFailure(): Life
      requires Dead?
    {
      Dead
    }
  }

  /** One host: the durable files, the kernel locks and the work on the daemon. The history is ghost. */
  class Host {
    var state: State
    ghost var run: seq<State>
    ghost var steps: seq<Step>

    ghost predicate Valid()
      reads this
    {
      IsRun(run, steps) && run[0] == Init && run[|steps|] == state
    }

    /** `p` is alive at this point of its code. */
    ghost predicate Is(p: Id, pc: Pc)
      reads this
    {
      Valid() && p in state.pcs && state.pcs[p] == pc
    }

    ghost predicate Reached(life: Life, p: Id, pc: Pc)
      reads this
    {
      Is(p, if life.Alive? then pc else Gone)
    }

    constructor ()
      ensures Valid() && state == Init
    {
      state := Init;
      run := [Init];
      steps := [];
    }

    method Take(step: Step)
      requires Valid() && Enabled(state, step)
      modifies this
      ensures Valid() && state == Do(old(state), step)
      ensures run == old(run) + [state] && steps == old(steps) + [step]
    {
      state := Do(state, step);
      run := run + [state];
      ghost var more := steps + [step];
      forall k | 0 <= k < |more|
        ensures Enabled(run[k], more[k]) && run[k + 1] == Do(run[k], more[k])
      {
        assert Position(k);
      }
      steps := more;
    }

    /** One operation of the program of `me`, which then is at `next`. */
    method Perform(me: Id, step: Step, next: Pc)
      requires Valid() && step.p == me && Enabled(state, step)
      requires me in Do(state, step).pcs && Do(state, step).pcs[me] == next
      modifies this
      ensures Is(me, next) && old(run) <= run
    {
      Take(step);
    }

    /** Any number of steps of other coordinators, and of the work anybody has started. */
    method Others(me: Id)
      requires Valid() && me in state.pcs
      modifies this
      ensures Valid() && me in state.pcs && state.pcs[me] == old(state.pcs[me])
      ensures old(run) <= run
    {
      var count: nat := *;
      while count > 0
        invariant Valid() && me in state.pcs && state.pcs[me] == old(state.pcs[me])
        invariant old(run) <= run
      {
        var step: Step := *;
        if Enabled(state, step) && step.p != me {
          RunKeepsInv(run, steps, |steps|);
          OnlyActorMoves(state, step, me);
          Take(step);
        }
        var work: WorkOp := *;
        if CanWork(state, me, work) {
          Take(OnWork(me, work));
        }
        count := count - 1;
      }
    }

    /** Between two operations others may act, and this coordinator may die. */
    method Pause(me: Id) returns (life: Life)
      requires Valid() && me in state.pcs && state.pcs[me] != Gone
      modifies this
      ensures Reached(life, me, old(state.pcs[me])) && old(run) <= run
    {
      Others(me);
      var dies: bool := *;
      if dies {
        Take(OnLock(me, Crash));
        return Dead;
      }
      return Alive;
    }

    /** Polls the admission lock until it is free or the deadline passes. */
    method EnterAdmission(me: Id) returns (entered: bool)
      requires Valid() && me in state.pcs && Entered(state.pcs[me]).Some?
      modifies this
      ensures entered ==> Is(me, Entered(old(state.pcs[me])).value)
      ensures !entered ==> Is(me, old(state.pcs[me]))
      ensures old(run) <= run
    {
      var polls: nat := *;
      Others(me);
      while state.admission != None && polls > 0
        invariant Is(me, old(state.pcs[me])) && old(run) <= run
      {
        Others(me);
        polls := polls - 1;
      }
      entered := state.admission == None;
      if entered {
        Take(OnLock(me, Enter));
      }
    }

    /** The process ends here and does nothing more to its record. */
    method Quit(me: Id) returns (life: Life)
      requires Valid() && me in state.pcs && state.pcs[me] != Gone
      modifies this
      ensures life.Dead? && Is(me, Gone) && old(run) <= run
    {
      Perform(me, OnLock(me, Crash), Gone);
      return Dead;
    }

    // ----- A job: scripts/ci_docker_gate.py and scripts/ci_docker_job.py -----

    /** The durable record comes first. */
    method WriteRegistration(me: Id) returns (life: Life)
      requires Is(me, Job(JActivity))
      modifies this
      ensures Reached(life, me, Job(JWritten)) && old(run) <= run
    {
      life := Alive;
      :- Pause(me);
      Perform(me, OnAdmit(me, WriteJob), Job(JWritten));
      return Alive;
    }

    /** The lock on the file just written; from here on the job is admitted. */
    method LockOwnRegistration(me: Id) returns (life: Life)
      requires Is(me, Job(JWritten))
      modifies this
      ensures Reached(life, me, Job(JLocked)) && old(run) <= run
    {
      life := Alive;
      :- Pause(me);
      RunKeepsInv(run, steps, |steps|);
      Perform(me, OnAdmit(me, LockRegistration), Job(JLocked));
      return Alive;
    }

    /** The admission lock is released with the lease in hand. */
    method LeaveAdmitted(me: Id) returns (life: Life)
      requires Is(me, Job(JLocked))
      modifies this
      ensures Reached(life, me, Job(JBody(false))) && old(run) <= run
    {
      life := Alive;
      :- Pause(me);
      Perform(me, OnLock(me, Leave), Job(JBody(false)));
      return Alive;
    }

    /** From here on the job can no longer be known complete without its receipt. */
    method AttemptLaunch(me: Id) returns (life: Life)
      requires Is(me, Job(JBody(false)))
      modifies this
      ensures Reached(life, me, Job(JBody(true))) && old(run) <= run
    {
      life := Alive;
      :- Pause(me);
      Perform(me, OnJob(me, Attempt), Job(JBody(true)));
      return Alive;
    }

    /** The record is removed, or replaced by an uncertain one. */
    method SettleJobFile(me: Id, known: bool) returns (life: Life)
      requires Is(me, Job(JSettle(known)))
      modifies this
      ensures Reached(life, me, Job(JSettled(known))) && old(run) <= run
    {
      life := Alive;
      :- Pause(me);
      RunKeepsInv(run, steps, |steps|);
      Perform(me, OnJob(me, SettleJob), Job(JSettled(known)));
      return Alive;
    }

    /** The admission lock is released; both descriptors are still open. */
    method LeaveSettledJob(me: Id, known: bool) returns (life: Life)
      requires Is(me, Job(JSettled(known)))
      modifies this
      ensures Reached(life, me, Job(JClose(known))) && old(run) <= run
    {
      life := Alive;
      :- Pause(me);
      Perform(me, OnLock(me, Leave), Job(JClose(known)));
      return Alive;
    }

    /** `_jobs()`: every registration is read and its lock probed, one after the other. */
    method ProbeJobs(me: Id) returns (life: Life)
      requires Valid() && me in state.pcs && state.pcs[me].Job?
      requires state.pcs[me].job.JBlocked? || state.pcs[me].job.JProbe?
      modifies this
      ensures Is(me, Job(JBlocked)) || Is(me, Job(JCleared)) || Is(me, Gone)
      ensures (life.Dead? <==> Is(me, Gone)) && old(run) <= run
    {
      while state.pcs[me].job.JProbe? && state.pcs[me].job.todo != {}
        invariant Valid() && me in state.pcs && state.pcs[me].Job? && old(run) <= run
        invariant state.pcs[me].job.JProbe? || state.pcs[me].job.JBlocked?
        decreases if state.pcs[me].job.JProbe? then |state.pcs[me].job.todo| + 1 else 0
      {
        :- Pause(me);
        var other :| other in state.pcs[me].job.todo;
        Perform(me, OnAdmit(me, Probe(other)),
                Job(if Stuck(state, other) then JBlocked else JProbe(state.pcs[me].job.todo - {other})));
      }
      if state.pcs[me].job.JProbe? {
        Perform(me, OnAdmit(me, ProbesDone), Job(JCleared));
      }
      return Alive;
    }

    /** The shared activity lock, polled until the deadline. */
    method TakeSharedActivity(me: Id) returns (life: Life)
      requires Is(me, Job(JCleared))
      modifies this
      ensures Reached(life, me, Job(JActivity)) && old(run) <= run
    {
      var polls: nat := *;
      while state.exclusive != None && polls > 0
        invariant Is(me, Job(JCleared)) && old(run) <= run
      {
        Others(me);
        polls := polls - 1;
      }
      if state.exclusive != None {
        life := Quit(me);
        return;
      }
      Perform(me, OnAdmit(me, TakeShared), Job(JActivity));
      return Alive;
    }

    /** Inside the admission lock: is there a maintenance record or an unresolved registration? */
    method LookAround(me: Id) returns (life: Life)
      requires Is(me, Job(JTry))
      modifies this
      ensures Is(me, Job(JBlocked)) || Is(me, Job(JCleared)) || Is(me, Gone)
      ensures (life.Dead? <==> Is(me, Gone)) && old(run) <= run
    {
      var entered := EnterAdmission(me);
      if !entered {
        life := Quit(me);
        return;
      }
      :- Pause(me);
      Perform(me, OnAdmit(me, ReadMaintenance),
              Job(if state.maintenance.Some? then JBlocked else JProbe(state.jobs.Keys)));
      life := ProbeJobs(me);
    }

    /** Activity lock, record, registration lock, in this order; then the admission lock is released. */
    method Register(me: Id) returns (life: Life)
      requires Is(me, Job(JCleared))
      modifies this
      ensures Reached(life, me, Job(JBody(false))) && old(run) <= run
    {
      life := Alive;
      :- TakeSharedActivity(me);
      :- WriteRegistration(me);
      :- LockOwnRegistration(me);
      life := LeaveAdmitted(me);
    }

    /** One admission attempt; a blocked job is back where it started. */
    method TryAdmission(me: Id) returns (life: Life)
      requires Is(me, Job(JTry))
      modifies this
      ensures Is(me, Job(JTry)) || Is(me, Job(JBody(false))) || Is(me, Gone)
      ensures (life.Dead? <==> Is(me, Gone)) && old(run) <= run
    {
      life := Alive;
      :- LookAround(me);
      :- Pause(me);
      if state.pcs[me] == Job(JCleared) {
        life := Register(me);
      } else {
        Perform(me, OnLock(me, Leave), Job(JTry));
        life := Alive;
      }
    }

    /** The loop that waits until no maintenance record and no unresolved registration blocks the job. */
    method Admit(me: Id) returns (life: Life)
      requires Is(me, Job(JTry))
      modifies this
      ensures Reached(life, me, Job(JBody(false))) && old(run) <= run
    {
      var attempts: nat := *;
      while state.pcs[me] == Job(JTry)
        invariant Is(me, Job(JTry)) || Is(me, Job(JBody(false)))
        invariant old(run) <= run
        decreases state.pcs[me] == Job(JTry), attempts
      {
        if attempts == 0 {
          life := Quit(me);
          return;
        }
        attempts := attempts - 1;
        :- TryAdmission(me);
      }
      return Alive;
    }

    /** The leased body: launch, wait, and accept the receipt only with the process group gone. */
    method Body(me: Id) returns (life: Life, known: bool)
      requires Is(me, Job(JBody(false)))
      modifies this
      ensures Reached(life, me, Job(JExit(known))) && old(run) <= run
    {
      known := false;
      :- Pause(me);
      var refused: bool := *;  // preflight, capacity or the receipt directory
      if refused {
        known := *;
        Perform(me, OnLock(me, Throw(known)), Job(JExit(known)));
        return Alive, known;
      }
      :- AttemptLaunch(me);
      :- Launch(me);
      known := me in state.work && state.work[me].receipt && !state.work[me].group;
      if known {
        Perform(me, OnJob(me, CompleteJob), Job(JExit(true)));
      } else {
        Perform(me, OnLock(me, Throw(false)), Job(JExit(false)));
      }
      return Alive, known;
    }

    /** The child is created, unless cancellation comes first; then the job is waited for. */
    method Launch(me: Id) returns (life: Life)
      requires Is(me, Job(JBody(true)))
      modifies this
      ensures Reached(life, me, Job(JBody(true))) && old(run) <= run
    {
      life := Alive;
      :- Pause(me);
      var created: bool := *;
      if created && me !in state.work {
        Perform(me, OnJob(me, JobOp.Launch), Job(JBody(true)));
      }
      life := Pause(me);
    }

    /** The `finally` part: the record is settled, or left as it is when the admission lock cannot be had. */
    method SettleJobRecord(me: Id, known: bool) returns (life: Life)
      requires Is(me, Job(JExit(known)))
      modifies this
      ensures Is(me, Gone) && old(run) <= run
      ensures life.Alive? ==> (me in state.jobs <==> !known)
      ensures life.Alive? && !known ==> state.jobs[me].phase == Uncertain
    {
      var entered := EnterAdmission(me);
      if !entered {
        life := Quit(me);
        return;
      }
      :- SettleJobFile(me, known);
      :- LeaveSettledJob(me, known);
      life := CloseJobDescriptors(me, known);
    }

    method CloseJobDescriptors(me: Id, known: bool) returns (life: Life)
      requires Is(me, Job(JClose(known)))
      modifies this
      ensures Is(me, Gone) && old(run) <= run
      ensures life.Alive? ==> (me in state.jobs <==> !known)
      ensures life.Alive? && !known ==> state.jobs[me].phase == Uncertain
    {
      life := Alive;
      :- Pause(me);
      RunKeepsInv(run, steps, |steps|);
      Take(OnJob(me, CloseJob));
      return Alive;
    }

    /** A whole job. However it ends, its record is still there and unresolved, or its work is over. */
    method RunJob(me: Id) returns (life: Life, known: bool)
      requires Valid() && me !in state.pcs
      modifies this
      ensures Is(me, Gone) && old(run) <= run
      ensures JobRunning(state, me) ==> me in state.jobs
      ensures me in state.jobs ==> Unresolved(state, me)
      ensures life.Alive? ==> (me in state.jobs <==> !known)
      ensures life.Alive? && !known ==> state.jobs[me].phase == Uncertain
    {
      known := false;
      Perform(me, Spawn(me, Job(JTry)), Job(JTry));
      life := Admit(me);
      if life.Alive? {
        life, known := Body(me);
        if life.Alive? {
          life := SettleJobRecord(me, known);
        }
      }
      RunKeepsInv(run, steps, |steps|);
    }

    // ----- A maintenance run: scripts/ci_docker_gate.py and scripts/ci_docker_maintenance.py -----

    /** New jobs see the record from here on; the jobs already admitted drain. */
    method LeaveWaiting(me: Id) returns (life: Life)
      requires Is(me, Run(MWritten))
      modifies this
      ensures Reached(life, me, Run(MWait)) && old(run) <= run
    {
      life := Alive;
      :- Pause(me);
      Perform(me, OnLock(me, Leave), Run(MWait));
      return Alive;
    }

    /** No lease was granted, so the record may go. */
    method WithdrawRecord(me: Id) returns (life: Life)
      requires Is(me, Run(MWithdraw))
      modifies this
      ensures Reached(life, me, Run(MWithdrawn)) && old(run) <= run
    {
      life := Alive;
      :- Pause(me);
      RunKeepsInv(run, steps, |steps|);
      Perform(me, OnRequest(me, Withdraw), Run(MWithdrawn));
      return Alive;
    }

    /** The active record is the grant. */
    method GrantLease(me: Id) returns (life: Life)
      requires Is(me, Run(MClear))
      modifies this
      ensures Reached(life, me, Run(MGranted)) && old(run) <= run
    {
      life := Alive;
      :- Pause(me);
      Perform(me, OnRequest(me, Grant), Run(MGranted));
      return Alive;
    }

    /** The admission lock is released with the lease in hand. */
    method LeaveGranted(me: Id) returns (life: Life)
      requires Is(me, Run(MGranted))
      modifies this
      ensures Reached(life, me, Run(MBody)) && old(run) <= run
    {
      life := Alive;
      :- Pause(me);
      Perform(me, OnLock(me, Leave), Run(MBody));
      return Alive;
    }

    /** Registrations remain although the activity lock was free: a refusal, known complete. */
    method LeaveRefused(me: Id) returns (life: Life)
      requires Is(me, Run(MRefused))
      modifies this
      ensures Reached(life, me, Run(MExit(true, false))) && old(run) <= run
    {
      life := Alive;
      :- Pause(me);
      Perform(me, OnLock(me, Leave), Run(MExit(true, false)));
      return Alive;
    }

    /** The container exists but does not run. */
    method CreateApplyContainer(me: Id) returns (life: Life)
      requires Is(me, Run(MBody))
      modifies this
      ensures Reached(life, me, Run(MCreated)) && old(run) <= run
    {
      life := Alive;
      :- Pause(me);
      Perform(me, OnRun(me, CreateContainer), Run(MCreated));
      return Alive;
    }

    /** The record names the container before anything starts. */
    method NameApplyContainer(me: Id) returns (life: Life)
      requires Is(me, Run(MRecord))
      modifies this
      ensures Reached(life, me, Run(MRecorded)) && old(run) <= run
    {
      life := Alive;
      :- Pause(me);
      Perform(me, OnRun(me, NameContainer), Run(MRecorded));
      return Alive;
    }

    /** The admission lock is released before the start. */
    method LeaveNamed(me: Id) returns (life: Life)
      requires Is(me, Run(MRecorded))
      modifies this
      ensures Reached(life, me, Run(MReady)) && old(run) <= run
    {
      life := Alive;
      :- Pause(me);
      Perform(me, OnLock(me, Leave), Run(MReady));
      return Alive;
    }

    /** The start is sent; whether it happens is up to the daemon. */
    method StartApplyContainer(me: Id) returns (life: Life)
      requires Is(me, Run(MReady))
      modifies this
      ensures Reached(life, me, Run(MStarted)) && old(run) <= run
    {
      life := Alive;
      :- Pause(me);
      Perform(me, OnRun(me, SendStart), Run(MStarted));
      return Alive;
    }

    /** The record is removed, or replaced by an uncertain one. */
    method SettleRunFile(me: Id, known: bool, named: bool) returns (life: Life)
      requires Is(me, Run(MSettle(known, named)))
      modifies this
      ensures Reached(life, me, Run(MSettled(known))) && old(run) <= run
    {
      life := Alive;
      :- Pause(me);
      RunKeepsInv(run, steps, |steps|);
      Perform(me, OnRun(me, SettleRun), Run(MSettled(known)));
      return Alive;
    }

    /** The admission lock is released; the activity lock is still held. */
    method LeaveSettledRun(me: Id, known: bool) returns (life: Life)
      requires Is(me, Run(MSettled(known)))
      modifies this
      ensures Reached(life, me, Run(MClose(known))) && old(run) <= run
    {
      life := Alive;
      :- Pause(me);
      Perform(me, OnLock(me, Leave), Run(MClose(known)));
      return Alive;
    }

    /** Waits for every job to leave; a run that waits in vain withdraws its record. */
    method DrainJobs(me: Id) returns (life: Life)
      requires Is(me, Run(MWait))
      modifies this
      ensures Reached(life, me, Run(MHeld)) && old(run) <= run
    {
      var polls: nat := *;
      while !(state.exclusive == None && state.shared == {}) && polls > 0
        invariant Is(me, Run(MWait)) && old(run) <= run
      {
        Others(me);
        polls := polls - 1;
      }
      if state.exclusive == None && state.shared == {} {
        Perform(me, OnRequest(me, TakeExclusive), Run(MHeld));
        return Alive;
      }
      Perform(me, OnLock(me, Throw(false)), Run(MAbandon));
      Abandon(me);
      return Dead;
    }

    /** No lease was granted: the record is withdrawn, if the admission lock can be had. */
    method Abandon(me: Id)
      requires Is(me, Run(MAbandon))
      modifies this
      ensures Is(me, Gone) && old(run) <= run
    {
      var entered := EnterAdmission(me);
      if !entered {
        var _ := Quit(me);
        return;
      }
      var life := WithdrawRecord(me);
      if life.Alive? {
        life := Pause(me);
      }
      if life.Alive? {
        Perform(me, OnLock(me, Leave), Gone);
      }
    }

    /** Another run has its record here: this one leaves without having written anything. */
    method TurnAway(me: Id) returns (life: Life)
      requires Is(me, Run(MRead)) && state.maintenance.Some?
      modifies this
      ensures life.Dead? && Is(me, Gone) && old(run) <= run
    {
      Perform(me, OnRequest(me, FindRecord), Run(MBlocked));
      :- Pause(me);
      Perform(me, OnLock(me, Leave), Gone);
      return Dead;
    }

    /** The waiting record is written only where there is none. */
    method AnnounceRun(me: Id) returns (life: Life)
      requires Is(me, Run(MStart))
      modifies this
      ensures Reached(life, me, Run(MWait)) && old(run) <= run
    {
      var entered := EnterAdmission(me);
      if !entered {
        life := Quit(me);
        return;
      }
      :- Pause(me);
      if state.maintenance.Some? {
        life := TurnAway(me);
        return;
      }
      Perform(me, OnRequest(me, WriteWaiting), Run(MWritten));
      life := LeaveWaiting(me);
    }

    /** With the activity lock held, authority is granted only if no registration is left. */
    method ClaimLease(me: Id) returns (life: Life)
      requires Is(me, Run(MHeld))
      modifies this
      ensures Is(me, Run(MBody)) || Is(me, Run(MExit(true, false))) || Is(me, Run(MExit(false, false))) || Is(me, Gone)
      ensures (life.Dead? <==> Is(me, Gone)) && old(run) <= run
    {
      var entered := EnterAdmission(me);
      if !entered {
        Perform(me, OnLock(me, Throw(false)), Run(MExit(false, false)));
        return Alive;
      }
      :- Pause(me);
      Perform(me, OnRequest(me, CheckJobs), Run(if state.jobs != map[] then MRefused else MClear));
      if state.pcs[me] == Run(MRefused) {
        :- LeaveRefused(me);
        return Alive;
      }
      :- GrantLease(me);
      :- LeaveGranted(me);
      return Alive;
    }

    /** Creates the container and names it in the record; an exception on the way is a known outcome. */
    method PrepareContainer(me: Id) returns (life: Life, known: bool, named: bool)
      requires Is(me, Run(MBody))
      modifies this
      ensures Is(me, Run(MReady)) || Is(me, Run(MExit(known, named))) || Is(me, Gone)
      ensures (life.Dead? <==> Is(me, Gone)) && old(run) <= run
    {
      known, named := *, false;
      var failed: bool := *;
      :- Pause(me);
      if failed {
        Perform(me, OnLock(me, Throw(known)), Run(MExit(known, false)));
        return Alive, known, false;
      }
      :- CreateApplyContainer(me);
      life := RecordContainer(me, known);
    }

    method RecordContainer(me: Id, known: bool) returns (life: Life)
      requires Is(me, Run(MCreated))
      modifies this
      ensures Is(me, Run(MReady)) || Is(me, Run(MExit(known, false))) || Is(me, Gone)
      ensures (life.Dead? <==> Is(me, Gone)) && old(run) <= run
    {
      var entered := EnterAdmission(me);
      if !entered {
        Perform(me, OnLock(me, Throw(known)), Run(MExit(known, false)));
        return Alive;
      }
      :- NameApplyContainer(me);
      life := LeaveNamed(me);
    }

    /** Starts the container and accepts its outcome only from a clean exit with an accepted report. */
    method AwaitContainer(me: Id) returns (life: Life, known: bool)
      requires Is(me, Run(MReady))
      modifies this
      ensures Reached(life, me, Run(MExit(known, true))) && old(run) <= run
      ensures life.Alive? && known ==>
                me in state.containers && state.containers[me].Exited? && state.containers[me].accepted
    {
      known := false;
      :- StartApplyContainer(me);
      :- Pause(me);
      known := me in state.containers && state.containers[me].Exited? && state.containers[me].accepted;
      if known {
        Take(OnRun(me, CompleteRun));
      } else {
        Perform(me, OnLock(me, Throw(false)), Run(MExit(false, true)));
      }
      return Alive, known;
    }

    method SettleRunRecord(me: Id, known: bool, named: bool) returns (life: Life)
      requires Is(me, Run(MExit(known, named)))
      modifies this
      ensures Is(me, Gone) && old(run) <= run
      ensures life.Alive? ==> (OwnsMaintenance(state, me) <==> !known)
      ensures life.Alive? && !known ==> state.maintenance.value.phase == Uncertain
    {
      var entered := EnterAdmission(me);
      if !entered {
        life := Quit(me);
        return;
      }
      :- SettleRunFile(me, known, named);
      :- LeaveSettledRun(me, known);
      life := CloseRunDescriptor(me, known);
    }

    method CloseRunDescriptor(me: Id, known: bool) returns (life: Life)
      requires Is(me, Run(MClose(known)))
      modifies this
      ensures Is(me, Gone) && old(run) <= run
      ensures life.Alive? ==> (OwnsMaintenance(state, me) <==> !known)
      ensures life.Alive? && !known ==> state.maintenance.value.phase == Uncertain
    {
      life := Alive;
      :- Pause(me);
      RunKeepsInv(run, steps, |steps|);
      Take(OnRun(me, CloseRun));
      return Alive;
    }

    /** Record, activity lock, check: the way to authority or to a refusal. */
    method ObtainLease(me: Id) returns (life: Life)
      requires Is(me, Run(MStart))
      modifies this
      ensures Is(me, Run(MBody)) || Is(me, Run(MExit(true, false))) || Is(me, Run(MExit(false, false))) || Is(me, Gone)
      ensures (life.Dead? <==> Is(me, Gone)) && old(run) <= run
    {
      life := Alive;
      :- AnnounceRun(me);
      :- DrainJobs(me);
      life := ClaimLease(me);
    }

    /** Everything between the grant and the `finally` part. */
    method UseLease(me: Id) returns (life: Life, known: bool, named: bool)
      requires Is(me, Run(MBody))
      modifies this
      ensures Reached(life, me, Run(MExit(known, named))) && old(run) <= run
    {
      life, known, named := PrepareContainer(me);
      if life.Alive? && state.pcs[me] == Run(MReady) {
        named := true;
        life, known := AwaitContainer(me);
      }
    }

    /** A whole maintenance run. However it ends, its record is still there and blocks admission, or no
        apply container works or will work for it. */
    method RunMaintenance(me: Id) returns (life: Life, known: bool)
      requires Valid() && me !in state.pcs
      modifies this
      ensures Is(me, Gone) && old(run) <= run
      ensures ApplyRunning(state, me) ==> OwnsMaintenance(state, me)
      ensures OwnsMaintenance(state, me) ==> Unresolved(state, me)
      ensures life.Alive? ==> (OwnsMaintenance(state, me) <==> !known)
      ensures life.Alive? && !known ==> state.maintenance.value.phase == Uncertain
    {
      known := false;
      var named := false;
      Perform(me, Spawn(me, Run(MStart)), Run(MStart));
      life := ObtainLease(me);
      if life.Alive? {
        if state.pcs[me] == Run(MBody) {
          life, known, named := UseLease(me);
        } else {
          known := state.pcs[me].run.known;
        }
      }
      if life.Alive? {
        life := SettleRunRecord(me, known, named);
      }
      RunKeepsInv(run, steps, |steps|);
    }

    // ----- A reconciliation: scripts/ci_docker_reconcile.py -----

    /** The audit is durable before anything is removed. */
    method WriteAuditRecord(me: Id, target: Id) returns (life: Life)
      requires Is(me, Recovery(target, RChecked))
      modifies this
      ensures Reached(life, me, Recovery(target, RAudited)) && old(run) <= run
    {
      life := Alive;
      :- Pause(me);
      Perform(me, OnRecovery(me, WriteAudit), Recovery(target, RAudited));
      return Alive;
    }

    /** Only the named record goes. */
    method ClearRecord(me: Id, target: Id) returns (life: Life)
      requires Is(me, Recovery(target, RAudited))
      modifies this
      ensures Reached(life, me, Recovery(target, RRemoved)) && old(run) <= run
      ensures life.Alive? ==> target in state.audits && !Present(state, target) && Is(target, Gone)
    {
      life := Alive;
      :- Pause(me);
      RunKeepsInv(run, steps, |steps|);
      Take(OnRecovery(me, RemoveRecord));
      return Alive;
    }

    /** The activity lock is released inside the admission lock. */
    method ReleaseRecovery(me: Id, target: Id) returns (life: Life)
      requires Is(me, Recovery(target, RRemoved))
      modifies this
      ensures Reached(life, me, Recovery(target, RClosed)) && old(run) <= run
    {
      life := Alive;
      :- Pause(me);
      Perform(me, OnRecovery(me, CloseRecovery), Recovery(target, RClosed));
      return Alive;
    }

    /** Admission, then the activity lock, then the record and its container are looked at. */
    method SelectRecord(me: Id, target: Id) returns (life: Life)
      requires Is(me, Recovery(target, RTry))
      modifies this
      ensures Reached(life, me, Recovery(target, RChecked)) && old(run) <= run
    {
      var entered := EnterAdmission(me);
      if !entered {
        life := Quit(me);
        return;
      }
      :- Pause(me);
      if !(state.exclusive == None && state.shared == {}) {
        life := Quit(me);
        return;
      }
      Perform(me, OnRecovery(me, TakeRecovery), Recovery(target, RHeld));
      :- Pause(me);
      if !Present(state, target) {
        life := Quit(me);
        return;
      }
      Perform(me, OnRecovery(me, Select), Recovery(target, RSelected));
      life := InspectContainer(me, target);
    }

    method InspectContainer(me: Id, target: Id) returns (life: Life)
      requires Is(me, Recovery(target, RSelected))
      modifies this
      ensures Reached(life, me, Recovery(target, RChecked)) && old(run) <= run
    {
      life := Alive;
      :- Pause(me);
      if target in state.containers && state.containers[target].Running? {
        life := Quit(me);
        return;
      }
      Perform(me, OnRecovery(me, CheckContainer), Recovery(target, RChecked));
      return Alive;
    }

    /** Activity lock first, admission lock last. */
    method LeaveRecovery(me: Id, target: Id) returns (life: Life)
      requires Is(me, Recovery(target, RRemoved))
      modifies this
      ensures Is(me, Gone) && old(run) <= run
    {
      life := Alive;
      :- ReleaseRecovery(me, target);
      :- Pause(me);
      Perform(me, OnLock(me, Leave), Gone);
      return Alive;
    }

    /** A whole reconciliation. A finished one leaves an audit and no record, and the record stays away. */
    method Reconcile(me: Id, target: Id) returns (life: Life)
      requires Valid() && me !in state.pcs && TruthfulEvidence(state, target)
      modifies this
      ensures Is(me, Gone) && old(run) <= run
      ensures life.Alive? ==> target in state.audits && !Present(state, target)
    {
      Perform(me, Spawn(me, Recovery(target, RTry)), Recovery(target, RTry));
      :- SelectRecord(me, target);
      :- WriteAuditRecord(me, target);
      :- ClearRecord(me, target);
      ghost var cleared := |steps|;
      life := LeaveRecovery(me, target);
      RemovedStaysRemoved(run, steps, cleared, |steps|, target);
    }
  }
}
