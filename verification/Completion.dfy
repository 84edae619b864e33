/** How a run of the cleanup process ends, and when the host may believe that it ended. */
module Completion {
  import opened Wrappers
  import opened Policy
  import opened Usage
  import opened Engines
  import opened Plans
  import opened Inventories
  import opened CacheRules
  import opened Cache
  import opened Cleanup
  import Retirement

  datatype Value = Text(s: string) | Number(n: int) | Truth(b: bool) | Other

  /** One line of the report; a line that is no object is nothing. */
  type Event = map<string, Value>
  type Line = Option<Event>

  /** What the host knows about the run it started. */
  datatype Host = Host(
    runId: string, policyHash: string, imageDigest: string, operation: string, profile: string, daemonId: string)

  function Get(e: Event, key: string): (v: Option<Value>) {
    if key in e then Some(e[key]) else None
  }

  predicate IsResult(line: Line) {
    line.Some? && Get(line.value, "event") == Some(Text("result"))
  }

  function Results(lines: seq<Line>): (n: nat) {
    if lines == [] then 0 else (if IsResult(lines[0]) then 1 else 0) + Results(lines[1..])
  }

  predicate NoneOr(v: Option<Value>, text: string) {
    v == None || v == Some(Text(text))
  }

  /** The host's completion contract for a report and an exit code. */
  predicate Accepts(lines: seq<Line>, exit: int, host: Host) {
    lines != [] &&
    (forall k :: 0 <= k < |lines| ==> lines[k].Some? && Get(lines[k].value, "run_id") == Some(Text(host.runId))) &&
    Results(lines) == 1 &&
    var result := lines[|lines| - 1].value;
    IsResult(Some(result)) && Get(result, "mode") == Some(Text(host.operation)) &&
    Get(result, "profile") == Some(Text(host.profile)) && Get(result, "image_digest") == Some(Text(host.imageDigest)) &&
    Get(result, "exit_code") == Some(Number(exit)) && Get(result, "completion_known") == Some(Truth(true)) &&
    Get(result, "mutation_started") in {Some(Truth(true)), Some(Truth(false))} && exit in {0, 2, 3, 4, 5} &&
    NoneOr(Get(result, "policy_hash"), host.policyHash) && NoneOr(Get(result, "daemon_id"), host.daemonId) &&
    (exit == 0 || Get(result, "mutation_started") == Some(Truth(true)) ==>
       Get(result, "policy_hash") == Some(Text(host.policyHash)) && Get(result, "daemon_id") == Some(Text(host.daemonId)))
  }

  function Optional(e: Event, key: string, value: Option<string>): (r: Event) {
    if value.Some? then e[key := Text(value.value)] else e
  }

  /** The last event of a run that came to its end. */
  function Finish(run: Host, policyKnown: bool, daemonKnown: bool, code: int, mutationStarted: bool): (e: Event) {
    var e := map["event" := Text("result"), "run_id" := Text(run.runId), "mode" := Text(run.operation),
                 "profile" := Text(run.profile), "image_digest" := Text(run.imageDigest), "exit_code" := Number(code),
                 "completion_known" := Truth(code != 6), "mutation_started" := Truth(mutationStarted)];
    Optional(Optional(e, "policy_hash", if policyKnown then Some(run.policyHash) else None),
             "daemon_id", if daemonKnown then Some(run.daemonId) else None)
  }

  /** Everything else a run reports. */
  ghost predicate Notices(lines: seq<Line>, runId: string) {
    forall k :: 0 <= k < |lines| ==>
      lines[k].Some? && !IsResult(lines[k]) && Get(lines[k].value, "run_id") == Some(Text(runId))
  }

  lemma {:induction false} ResultsOf(lines: seq<Line>, last: Line, runId: string)
    requires Notices(lines, runId)
    ensures Results(lines) == 0 && Results(lines + [last]) == if IsResult(last) then 1 else 0
  {
    if lines == [] {
      assert lines + [last] == [last];
      assert [last][1..] == [];
    } else {
      ResultsOf(lines[1..], last, runId);
      assert (lines + [last])[1..] == lines[1..] + [last];
    }
  }

  /** A report without its result is never accepted. */
  lemma NoResultNoAcceptance(lines: seq<Line>, exit: int, host: Host, runId: string)
    requires Notices(lines, runId)
    ensures !Accepts(lines, exit, host)
  {
    if lines != [] {
      assert !IsResult(lines[|lines| - 1]);
    }
  }

  /** The report of a run that came to its end is accepted, by a host that expects this run, exactly when the exit
      code is the reported one and does not ask for reconciliation. */
  lemma AcceptanceOfFinish(lines: seq<Line>, exit: int, host: Host, policyKnown: bool, daemonKnown: bool,
                           code: int, started: bool)
    requires Notices(lines, host.runId) && code in {0, 2, 3, 4, 5, 6}
    requires (code == 0 || started) ==> policyKnown && daemonKnown
    ensures Accepts(lines + [Some(Finish(host, policyKnown, daemonKnown, code, started))], exit, host) <==>
            exit == code && code != 6
  {
    var last := Finish(host, policyKnown, daemonKnown, code, started);
    ResultsOf(lines, Some(last), host.runId);
    var all := lines + [Some(last)];
    assert all[|all| - 1] == Some(last);
  }

  /** Whatever host reads it: no part of a report is accepted once the run reported code 6. */
  lemma ReconciliationIsNeverAccepted(lines: seq<Line>, n: nat, exit: int, host: Host, run: Host,
                                      policyKnown: bool, daemonKnown: bool, code: int, started: bool)
    requires Notices(lines, run.runId) && n <= |lines| + 1
    ensures Accepts((lines + [Some(Finish(run, policyKnown, daemonKnown, code, started))])[..n], exit, host) ==>
              n == |lines| + 1 && exit == code && code != 6
  {
    var last := Some(Finish(run, policyKnown, daemonKnown, code, started));
    if n <= |lines| {
      assert (lines + [last])[..n] == lines[..n];
      NoResultNoAcceptance(lines[..n], exit, host, run.runId);
    } else {
      assert (lines + [last])[..n] == lines + [last];
    }
  }

  // ---------------------------------------------------------------------------------------------------
  // One run of the process

  datatype Operation = Check | PlanOnly | ApplyAll

  /** Sizes for the report; only a lost reply after a mutation ends the run here. */
  method Accounting(engine: Engine) returns (r: Result<(), Stop>)
    requires engine.Ready()
    modifies engine`log, engine.daemon`world, engine.daemon`cache
    ensures engine.Ready() && old(engine.log) <= engine.log
    ensures engine.daemon.quiet ==>
              engine.daemon.world == old(engine.daemon.world) && engine.daemon.cache == old(engine.daemon.cache)
    ensures r.Failure? ==> r.error in {Failed(6), Died}
  {
    var got := engine.Get(Elsewhere);
    return if got.Failure? && got.error in {Failed(6), Died} then got else Success(());
  }

  /** The terms of a run that starts on this daemon. */
  function StartTerms(w: World, policy: Settings, now: int, profile: Profile, sample: Option<bool>): (t: Terms) {
    Terms(policy, now, profile, sample, ProtectedImages(w.names, policy.protection))
  }

  /** The report says of each object whether it goes now, goes later, or stays. */
  ghost predicate Announces(candidates: Gone, dependents: Gone, planned: Gone) {
    candidates.containers == planned.containers && dependents.containers == {} &&
    candidates.networks + dependents.networks == planned.networks && candidates.networks !! dependents.networks &&
    candidates.images + dependents.images == planned.images && candidates.images !! dependents.images
  }

  /** Inventory and observations before anything is decided. */
  method Prepare(inventory: Inventory, cache: BuildCache, operation: Operation) returns (r: Result<(), Stop>)
    requires inventory.engine.Ready() && inventory.engine == cache.engine && inventory.Justified()
    requires Faithful(cache.accepted, inventory.engine.log)
    modifies inventory, cache`records, cache`accepted, cache`verified, inventory.engine`log
    modifies inventory.engine.daemon`world, inventory.engine.daemon`cache
    ensures inventory.engine.Ready() && inventory.Justified() && old(inventory.engine.log) <= inventory.engine.log
    ensures inventory.engine.daemon.quiet ==> inventory.engine.daemon.world == old(inventory.engine.daemon.world)
    ensures r.Success? ==> inventory.Loaded() && Faithful(cache.accepted, inventory.engine.log)
  {
    if operation == ApplyAll {
      var _ :- inventory.engine.Guard();
      FaithfulLater(cache.accepted, old(inventory.engine.log), inventory.engine.log);
    }
    var _ :- cache.Preflight();
    ghost var log := inventory.engine.log;
    var _ :- inventory.Load();
    var _ :- Accounting(inventory.engine);
    FaithfulLater(cache.accepted, log, inventory.engine.log);
    var _ :- cache.Observe();
    return Success(());
  }

  /** What is read once an apply is through. */
  method LastLook(engine: Engine, cache: BuildCache) returns (r: Result<(), Stop>)
    requires engine.Ready() && engine == cache.engine && Faithful(cache.accepted, engine.log)
    modifies cache`records, cache`accepted, engine`log, engine.daemon`world, engine.daemon`cache
    ensures engine.Ready() && old(engine.log) <= engine.log
    ensures engine.daemon.quiet ==> engine.daemon.world == old(engine.daemon.world)
  {
    var _ :- engine.Guard();
    var _ :- Accounting(engine);
    FaithfulLater(cache.accepted, old(engine.log), engine.log);
    var _ :- cache.Observe();
    return Success(());
  }

  /** The body of a run, once the daemon is identified. */
  method Work(operation: Operation, inventory: Inventory, cache: BuildCache, report: Report, now: int, profile: Profile)
    returns (r: Result<(), Stop>)
    requires inventory.engine.Ready() && inventory.engine == cache.engine && inventory.Justified() && cache.submitted == []
    requires inventory.engine.daemon.gone == NOTHING && !inventory.engine.mutationStarted
    requires Faithful(cache.accepted, inventory.engine.log)
    requires inventory.engine.rule == ForCleanup(inventory.policy, now, profile, inventory.sample, cache.policy)
    requires report.candidates == report.dependents == report.removed == NOTHING
    modifies inventory, cache, report, inventory.engine, inventory.engine.daemon
    ensures inventory.engine.Sound() && Orderly(inventory.engine.log, inventory.engine.rule, r)
    ensures operation != ApplyAll ==> Untouched(inventory.engine.log) && inventory.engine.daemon.gone == NOTHING
    ensures r.Success? && operation == ApplyAll ==> report.removed == inventory.engine.daemon.gone
    ensures report.removed.Within(inventory.engine.daemon.gone)
    ensures var t := StartTerms(old(inventory.engine.daemon.world), inventory.policy, now, profile, inventory.sample);
            var planned := Planned(old(inventory.engine.daemon.world), t);
            inventory.engine.daemon.quiet ==>
              inventory.engine.daemon.gone.Within(planned) &&
              (r.Success? && inventory.steady && operation == PlanOnly ==>
                 Announces(report.candidates, report.dependents, planned)) &&
              (r.Success? && inventory.steady && operation == ApplyAll && report.refused == {} ==>
                 inventory.engine.daemon.gone == planned)
  {
    ghost var w := inventory.engine.daemon.world;
    var _ :- Prepare(inventory, cache, operation);
    match operation
    case Check => return Success(());
    case PlanOnly =>
      var _ :- Plan(inventory, now, profile, report);
      NamesDoNotMatter(w, StartTerms(w, inventory.policy, now, profile, inventory.sample));
      return Success(());
    case ApplyAll =>
      ghost var start := inventory.engine.daemon.world;
      ghost var t := StartTerms(start, inventory.policy, now, profile, inventory.sample);
      AfterNothing(start);
      var _ :- Apply(inventory, cache, report, now, profile, start, t);
      r := LastLook(inventory.engine, cache);
  }

  /** The exit code of a run that stopped. */
  function CodeOf(stop: Stop): (code: int)
    requires stop != Died
    ensures code in {2, 3, 4, 5, 6}
  {
    match stop
    case Failed(code) => code
    case Refused(_) => 5
  }

  /** A mutating request was sent and what became of it is not known. */
  ghost predicate InFlight(log: seq<Entry>) {
    log != [] && Mutation(log[|log| - 1]) && !Known(log[|log| - 1])
  }

  /** At most the last request has an unknown outcome. */
  ghost predicate OnlyLastOpen(log: seq<Entry>) {
    Settled(log) || (InFlight(log) && Settled(log[..|log| - 1]))
  }

  /** No host accepts any part of the report while a request is in flight. */
  ghost predicate Honest(lines: seq<Line>, log: seq<Entry>) {
    forall n: nat, e: int, host: Host :: n <= |lines| && Accepts(lines[..n], e, host) ==> Settled(log) && !InFlight(log)
  }

  lemma OrderlyIsOpenAtEnd(log: seq<Entry>, rule: Rule, r: Result<(), Stop>)
    requires Orderly(log, rule, r)
    ensures OnlyLastOpen(log) && (!Settled(log) ==> r == Failure(Failed(6)) || r == Failure(Died))
    ensures Settled(log) ==> !InFlight(log)
  {
  }

  /** The report and the exit code with which a run ends. `said` is all it reports besides the result. A process
      that died has no exit code of its own and reports no result. */
  method Conclude(r: Result<(), Stop>, run: Host, policyKnown: bool, daemonKnown: bool, started: bool, said: seq<Line>)
    returns (lines: seq<Line>, exit: Option<int>)
    requires Notices(said, run.runId) && (r.Success? || started ==> policyKnown && daemonKnown)
    ensures forall n: nat, e: int, host: Host :: n <= |lines| && Accepts(lines[..n], e, host) ==> exit == Some(e) && e != 6
    ensures forall e: int :: Accepts(lines, e, run) <==> exit == Some(e) && e != 6
    ensures exit == match r
                    case Success(_) => Some(0)
                    case Failure(stop) => if stop == Died then None else Some(CodeOf(stop))
  {
    if r == Failure(Died) {
      forall n: nat, e: int, host: Host | n <= |said|
        ensures !Accepts(said[..n], e, host)
      {
        NoResultNoAcceptance(said[..n], e, host, run.runId);
      }
      assert said[..|said|] == said;
      return said, None;
    }
    var code := if r.Success? then 0 else CodeOf(r.error);
    lines := said + [Some(Finish(run, policyKnown, daemonKnown, code, started))];
    forall n: nat, e: int, host: Host | n <= |lines|
      ensures Accepts(lines[..n], e, host) ==> e == code && code != 6
    {
      ReconciliationIsNeverAccepted(said, n, e, host, run, policyKnown, daemonKnown, code, started);
    }
    forall e: int
      ensures Accepts(lines, e, run) <==> e == code && code != 6
    {
      AcceptanceOfFinish(said, e, run, policyKnown, daemonKnown, code, started);
    }
    exit := Some(code);
  }

  /** One run of the cleanup process from start to exit. */
  method Run(operation: Operation, daemon: Daemon, run: Host, policy: Settings, cachePolicy: CachePolicy, now: int,
             profile: Profile, sample: Option<bool>, steady: bool, said: seq<Line>, report: Report)
    returns (lines: seq<Line>, exit: Option<int>, engine: Engine)
    requires Notices(said, run.runId) && daemon.gone == NOTHING
    requires report.candidates == report.dependents == report.removed == NOTHING && report.refused == {}
    modifies daemon, report
    // Every deletion follows a lease check, and that follows fresh reads on which the decision is to delete; every
    // cache request follows a lease check, and that follows a read of the usage on which the policy allows it.
    ensures engine.daemon == daemon && Guarded(engine.log, ForCleanup(policy, now, profile, sample, cachePolicy))
    // An outcome that stays unknown is the last request, and no host accepts any part of the report.
    ensures OnlyLastOpen(engine.log) && (!Settled(engine.log) ==> exit in {None, Some(6)})
    ensures Honest(lines, engine.log)
    // The host that started the run accepts its full report exactly when the run knows how it ended.
    ensures forall e: int :: Accepts(lines, e, run) <==> exit == Some(e) && e != 6
    ensures operation != ApplyAll ==> Untouched(engine.log) && daemon.gone == NOTHING
    ensures var planned := Planned(old(daemon.world), StartTerms(old(daemon.world), policy, now, profile, sample));
            daemon.quiet ==>
              daemon.gone.Within(planned) &&
              (exit == Some(0) && steady && operation == PlanOnly ==>
                 Announces(report.candidates, report.dependents, planned)) &&
              (exit == Some(0) && steady && operation == ApplyAll && report.refused == {} ==> daemon.gone == planned)
    ensures report.removed.Within(daemon.gone) && (exit == Some(0) && operation == ApplyAll ==> report.removed == daemon.gone)
  {
    engine := new Engine(daemon, ForCleanup(policy, now, profile, sample, cachePolicy));
    var policyKnown: bool := *;
    var r: Result<(), Stop>;
    var daemonKnown := false;
    if !policyKnown {
      r := Failure(Failed(2));
    } else {
      r := engine.Preflight();
      if r.Success? {
        daemonKnown := true;
        var inventory := new Inventory(engine, policy, sample, steady);
        var cache := new BuildCache(engine, cachePolicy);
        r := Work(operation, inventory, cache, report, now, profile);
      }
    }
    OrderlyIsOpenAtEnd(engine.log, engine.rule, r);
    lines, exit := Conclude(r, run, policyKnown, daemonKnown, engine.mutationStarted, said);
  }

  /** One run of the retirement process from start to exit. */
  method RunRetirement(apply: bool, daemon: Daemon, run: Host, policy: Settings, selected: set<string>, said: seq<Line>,
                       report: Retirement.TagReport)
    returns (lines: seq<Line>, exit: Option<int>, engine: Engine)
    requires Notices(said, run.runId) && daemon.untagged == {} && (daemon.quiet ==> Retirement.Consistent(daemon.world))
    requires report.wouldRemove == report.removed == report.refused == {}
    modifies daemon, report
    ensures engine.daemon == daemon && Guarded(engine.log, ForTags(policy, Retirement.Wanted(selected)))
    ensures OnlyLastOpen(engine.log) && (!Settled(engine.log) ==> exit in {None, Some(6)})
    ensures Honest(lines, engine.log)
    ensures forall e: int :: Accepts(lines, e, run) <==> exit == Some(e) && e != 6
    ensures !apply ==> Untouched(engine.log) && daemon.untagged == {}
    ensures var retirable := Retirement.Retirable(old(daemon.world), policy, Retirement.Wanted(selected));
            daemon.quiet ==>
              daemon.untagged <= retirable &&
              (exit == Some(0) && !apply ==> report.wouldRemove == retirable) &&
              (exit == Some(0) && apply && report.refused == {} ==> report.removed == retirable)
    // Whatever was not removed is left as it was.
    ensures daemon.quiet ==> Retirement.Retired(daemon.world, old(daemon.world), policy, daemon.untagged)
    ensures report.removed <= daemon.untagged && (exit == Some(0) ==> report.removed == daemon.untagged)
  {
    if daemon.quiet {
      Retirement.NothingRetired(daemon.world, policy);
    }
    engine := new Engine(daemon, ForTags(policy, Retirement.Wanted(selected)));
    var policyKnown: bool := *;
    var r: Result<(), Stop>;
    var daemonKnown := false;
    if !policyKnown {
      r := Failure(Failed(2));
    } else {
      r := engine.Preflight();
      if r.Success? {
        daemonKnown := true;
        r := Retire(apply, engine, policy, selected, report);
      }
    }
    OrderlyIsOpenAtEnd(engine.log, engine.rule, r);
    lines, exit := Conclude(r, run, policyKnown, daemonKnown, engine.mutationStarted, said);
  }

  /** The body of a retirement run, once the daemon is identified; an apply checks its lease before and after. */
  method Retire(apply: bool, engine: Engine, policy: Settings, selected: set<string>, report: Retirement.TagReport)
    returns (r: Result<(), Stop>)
    requires engine.Ready() && !engine.mutationStarted && engine.rule == ForTags(policy, Retirement.Wanted(selected))
    requires engine.daemon.untagged == {} && (engine.daemon.quiet ==> Retirement.Consistent(engine.daemon.world))
    requires report.wouldRemove == report.removed == report.refused == {}
    modifies engine, engine.daemon, report
    ensures engine.Sound() && Orderly(engine.log, engine.rule, r)
    ensures !apply ==> Untouched(engine.log) && engine.daemon.untagged == {}
    ensures var retirable := Retirement.Retirable(old(engine.daemon.world), policy, Retirement.Wanted(selected));
            engine.daemon.quiet ==>
              engine.daemon.untagged <= retirable &&
              (r.Success? && !apply ==> report.wouldRemove == retirable) &&
              (r.Success? && apply && report.refused == {} ==> report.removed == retirable)
    ensures engine.daemon.quiet ==>
              Retirement.Retired(engine.daemon.world, old(engine.daemon.world), policy, engine.daemon.untagged)
    ensures report.removed <= engine.daemon.untagged && (r.Success? ==> report.removed == engine.daemon.untagged)
  {
    if engine.daemon.quiet {
      Retirement.NothingRetired(engine.daemon.world, policy);
    }
    if apply {
      var _ :- engine.Guard();
    }
    var inventory := new Inventory(engine, policy, None, false);
    var _ :- Retirement.RemoveVersions(inventory, selected, apply, report, engine.daemon.world);
    if apply {
      var _ :- engine.Guard();
    }
    return Success(());
  }
}
