/** Two-stage pruning of the build cache: first by age, then to a space budget. */
module Cache {
  import opened Wrappers
  import opened Policy
  import opened CacheRules
  import opened FilterText
  import opened Engines

  datatype Totals = Totals(reported: int, shared: int, nonShared: int)

  lemma {:induction false} BytesAddUp(records: seq<Item>)
    ensures Bytes(records, None) == Bytes(records, Some(true)) + Bytes(records, Some(false))
  {
    if records != [] {
      BytesAddUp(records[1..]);
    }
  }

  const MAX_SIZE := 0x7FFF_FFFF_FFFF_FFFF

  predicate Plain(item: Option<Item>) {
    item.Some? && CacheId(item.value.0) && 0 <= item.value.1.size <= MAX_SIZE
  }

  predicate Distinct(items: seq<Option<Item>>) {
    forall j, k :: 0 <= j < k < |items| && items[j].Some? && items[k].Some? ==> items[j].value.0 != items[k].value.0
  }

  /** Reads the reported usage record by record; one unreadable or repeated record spoils it all. */
  method ReadUsage(items: seq<Option<Item>>) returns (r: Result<seq<Item>, Stop>)
    ensures r.Success? <==> Distinct(items) && forall k :: 0 <= k < |items| ==> Plain(items[k])
    ensures r.Failure? ==> r.error == Failed(2)
    ensures r.Success? ==> |r.value| == |items| && forall k :: 0 <= k < |items| ==> Some(r.value[k]) == items[k]
  {
    var records: seq<Item> := [];
    var seen: set<string> := {};
    for k := 0 to |items|
      invariant |records| == k && forall j :: 0 <= j < k ==> Plain(items[j]) && Some(records[j]) == items[j]
      invariant forall id :: id in seen <==> exists j :: 0 <= j < k && records[j].0 == id
      invariant Distinct(items[..k])
    {
      if !Plain(items[k]) {
        return Failure(Failed(2));
      }
      if items[k].value.0 in seen {
        var j :| 0 <= j < k && records[j].0 == items[k].value.0;
        assert items[j].value.0 == items[k].value.0;
        return Failure(Failed(2));
      }
      records := records + [items[k].value];
      seen := seen + {items[k].value.0};
    }
    assert items[..|items|] == items;
    return Success(records);
  }

  method ListCache(cache: map<string, CacheRecord>) returns (items: seq<Option<Item>>)
    ensures forall k :: 0 <= k < |items| ==> items[k].Some?
    ensures forall id, record :: Some((id, record)) in items <==> id in cache && cache[id] == record
  {
    items := [];
    var rest := cache.Keys;
    while rest != {}
      invariant rest <= cache.Keys
      invariant forall k :: 0 <= k < |items| ==> items[k].Some?
      invariant forall id, record :: Some((id, record)) in items <==> id in cache && id !in rest && cache[id] == record
    {
      var id :| id in rest;
      rest := rest - {id};
      items := items + [Some((id, cache[id]))];
    }
  }

  /** The identifiers that a stage may submit: of old enough records, or of all whose last use is known. */
  function Candidates(records: seq<Item>, includeInternal: bool, threshold: Option<int>): (ids: seq<string>) {
    if records == [] then []
    else
      var record := records[0].1;
      (if Allowed(record, includeInternal) && record.lastUsed.Some? &&
          (threshold == None || record.lastUsed.value < threshold.value) then [records[0].0] else []) +
      Candidates(records[1..], includeInternal, threshold)
  }

  lemma {:induction false} CandidatesMayGo(records: seq<Item>, includeInternal: bool, threshold: Option<int>, id: string)
    ensures id in Candidates(records, includeInternal, threshold) <==>
              exists k :: 0 <= k < |records| && records[k].0 == id && MayGo(records[k].1, includeInternal, threshold)
  {
    if records != [] {
      var rest := records[1..];
      CandidatesMayGo(rest, includeInternal, threshold, id);
      if k :| 0 <= k < |rest| && rest[k].0 == id && MayGo(rest[k].1, includeInternal, threshold) {
        assert records[k + 1] == rest[k];
      }
      if k :| 0 < k < |records| && records[k].0 == id && MayGo(records[k].1, includeInternal, threshold) {
        assert rest[k - 1] == records[k];
      }
    }
  }

  /** Whole seconds since the threshold, rounded up. */
  function UnusedSeconds(now: int, threshold: int): (seconds: int) {
    -((threshold - now) / SECOND)
  }

  /** Counted back from the moment of submission, the rounded age stays behind the threshold, by less than a second. */
  lemma RoundedAgeStaysBehind(now: int, threshold: int)
    ensures var cutoff := now - UnusedSeconds(now, threshold) * SECOND;
            cutoff <= threshold < cutoff + SECOND
  {
    var q, m := (threshold - now) / SECOND, (threshold - now) % SECOND;
    assert threshold - now == q * SECOND + m && 0 <= m < SECOND;
  }

  /** The usage that was accepted at a position of the log lists the cache as the daemon had it there. */
  ghost predicate Faithful(accepted: map<nat, seq<Item>>, log: seq<Entry>) {
    forall k :: k in accepted ==> k < |log| && Saw(log[k], CacheUsage) && Lists(accepted[k], log[k].cache)
  }

  /** The policy allows the request, and it follows, with nothing but the lease check in between, a read whose usage
      was accepted and is the one that was looked at. */
  ghost predicate Lawful(s: Submission, policy: CachePolicy, cutoff: int, log: seq<Entry>, accepted: map<nat, seq<Item>>) {
    s.ids != [] && WithinPolicy(s, policy, cutoff) && s.at in accepted && accepted[s.at] == s.seen &&
    s.at < |log| && Saw(log[s.at], CacheUsage) && Asked(log, s.at + 1, s)
  }

  /** A lease check and then this request. */
  ghost predicate Asked(log: seq<Entry>, at: nat, s: Submission) {
    at + 1 < |log| && log[at] == Checked && log[at + 1].Prune? && log[at + 1].request == s
  }

  lemma LawfulLater(s: Submission, policy: CachePolicy, cutoff: int, log: seq<Entry>, accepted: map<nat, seq<Item>>,
                    longer: seq<Entry>, more: map<nat, seq<Item>>)
    requires Lawful(s, policy, cutoff, log, accepted) && log <= longer && Extends(accepted, more)
    ensures Lawful(s, policy, cutoff, longer, more)
  {
  }

  ghost predicate Extends(accepted: map<nat, seq<Item>>, more: map<nat, seq<Item>>) {
    forall k :: k in accepted ==> k in more && more[k] == accepted[k]
  }

  ghost predicate AllLawful(submitted: seq<Submission>, policy: CachePolicy, cutoff: int, log: seq<Entry>,
                            accepted: map<nat, seq<Item>>)
  {
    forall k :: 0 <= k < |submitted| ==> Lawful(submitted[k], policy, cutoff, log, accepted)
  }

  lemma AllLawfulLater(submitted: seq<Submission>, policy: CachePolicy, cutoff: int, log: seq<Entry>,
                       accepted: map<nat, seq<Item>>, longer: seq<Entry>, more: map<nat, seq<Item>>)
    requires AllLawful(submitted, policy, cutoff, log, accepted) && log <= longer && Extends(accepted, more)
    ensures AllLawful(submitted, policy, cutoff, longer, more)
  {
    forall k | 0 <= k < |submitted|
      ensures Lawful(submitted[k], policy, cutoff, longer, more)
    {
      LawfulLater(submitted[k], policy, cutoff, log, accepted, longer, more);
    }
  }

  lemma AcceptedIsFaithful(accepted: map<nat, seq<Item>>, log: seq<Entry>, read: seq<Item>)
    requires Faithful(accepted, log) && log != [] && Saw(log[|log| - 1], CacheUsage) && Lists(read, log[|log| - 1].cache)
    ensures Faithful(accepted[|log| - 1 := read], log)
  {
  }

  /** Since `from`, whatever was read before a request was an accepted observation: an unreadable one is followed by
      no request. */
  ghost predicate NothingAfterUnreadable(accepted: map<nat, seq<Item>>, log: seq<Entry>, from: nat) {
    forall k, i :: from <= k < i < |log| && log[k].Read? && log[i].Prune? ==> k in accepted
  }

  /** Every request since `from` was kept. */
  ghost predicate Booked(submitted: seq<Submission>, log: seq<Entry>, from: nat) {
    forall k :: from <= k < |log| && log[k].Prune? ==> log[k].request in submitted
  }

  /** The only read since `from` is the one there. */
  ghost predicate OneLook(log: seq<Entry>, from: nat) {
    from < |log| && log[from].Read? && forall k :: from < k < |log| ==> !log[k].Read?
  }

  /** One stage: anything after its observation follows only if that was accepted. */
  lemma NothingAfterOne(accepted: map<nat, seq<Item>>, log: seq<Entry>, from: nat)
    requires OneLook(log, from) && (from !in accepted ==> |log| == from + 1)
    ensures NothingAfterUnreadable(accepted, log, from)
  {
  }

  lemma NothingAfterTwo(accepted: map<nat, seq<Item>>, log: seq<Entry>, longer: seq<Entry>, from: nat)
    requires OneLook(log, from) && log <= longer && from in accepted
    requires NothingAfterUnreadable(accepted, longer, |log|)
    ensures NothingAfterUnreadable(accepted, longer, from)
  {
    forall k, i | from <= k < i < |longer| && longer[k].Read? && longer[i].Prune?
      ensures k in accepted
    {
      assert k < |log| ==> longer[k] == log[k];
    }
  }

  lemma FaithfulLater(accepted: map<nat, seq<Item>>, log: seq<Entry>, longer: seq<Entry>)
    requires Faithful(accepted, log) && log <= longer
    ensures Faithful(accepted, longer)
  {
  }

  /** What the daemon lost: at most records that were there and may go. */
  ghost predicate OnlyMayGo(cache: map<string, CacheRecord>, before: map<string, CacheRecord>, includeInternal: bool,
                            threshold: Option<int>)
  {
    OnlyLess(cache, before) && forall id :: id in before && id !in cache ==> MayGo(before[id], includeInternal, threshold)
  }

  lemma GoneInTwoSteps(cache: map<string, CacheRecord>, between: map<string, CacheRecord>, before: map<string, CacheRecord>,
                       includeInternal: bool, first: Option<int>, second: Option<int>)
    requires OnlyMayGo(between, before, includeInternal, first) && OnlyMayGo(cache, between, includeInternal, second)
    ensures OnlyMayGo(cache, before, includeInternal, None)
    ensures cache == between ==> OnlyMayGo(cache, before, includeInternal, first)
  {
  }

  lemma RequestIsAllowed(s: Submission, policy: CachePolicy, cutoff: int)
    requires s.ids == Candidates(s.seen, policy.includeInternal, Threshold(policy, cutoff, s.unused.Some?))
    requires s.unused.Some? ==> s.moment - s.unused.value * SECOND <= Threshold(policy, cutoff, true).value
    requires s.unused == None ==> s.limit == Some(policy.maxUsedSpace) && Bytes(s.seen, Some(false)) > policy.maxUsedSpace
    ensures WithinPolicy(s, policy, cutoff)
  {
    var threshold := Threshold(policy, cutoff, s.unused.Some?);
    forall id | id in s.ids
      ensures Submittable(s, id, policy.includeInternal, threshold)
    {
      CandidatesMayGo(s.seen, policy.includeInternal, threshold, id);
    }
  }

  lemma CandidatesOnly(cache: map<string, CacheRecord>, before: map<string, CacheRecord>, records: seq<Item>, ids: seq<string>,
                       includeInternal: bool, limit: Option<int>, quiet: bool)
    requires Lists(records, before) && ids == Candidates(records, includeInternal, limit)
    requires quiet ==> OnlyLess(cache, before) && forall k :: k in before && k !in ids ==> k in cache
    ensures quiet ==> OnlyMayGo(cache, before, includeInternal, limit)
  {
    forall id | quiet && id in before && id !in cache
      ensures MayGo(before[id], includeInternal, limit)
    {
      CandidatesMayGo(records, includeInternal, limit, id);
      var k :| 0 <= k < |records| && records[k].0 == id && MayGo(records[k].1, includeInternal, limit);
      assert (id, records[k].1) in records;
    }
  }

  /** A budget request was made. */
  ghost predicate Budgeted(submitted: seq<Submission>) {
    exists k :: 0 <= k < |submitted| && submitted[k].unused == None
  }

  /** The usage reply for a cache, read; it may arrive damaged. */
  method ReadReply(cache: map<string, CacheRecord>) returns (r: Result<seq<Item>, Stop>)
    ensures r.Success? ==> Lists(r.value, cache)
    ensures r.Failure? ==> r.error == Failed(2)
  {
    var usage := ListCache(cache);
    var damaged: bool := *;
    if damaged {
      usage := usage + [None];
      assert usage[|usage| - 1] == None;
    }
    var read :- ReadUsage(usage);
    assert forall k :: 0 <= k < |usage| ==> Some(read[k]) == usage[k];
    assert forall id, record :: (id, record) in read <==> Some((id, record)) in usage;
    assert forall j, k :: 0 <= j < k < |read| ==> usage[j] == Some(read[j]) && usage[k] == Some(read[k]);
    return Success(read);
  }

  class BuildCache {
    const engine: Engine
    const policy: CachePolicy
    var verified: bool
    var records: seq<Item>
    ghost var submitted: seq<Submission>
    /** The usage accepted at each position of the log that was an observation. */
    ghost var accepted: map<nat, seq<Item>>

    constructor (engine: Engine, policy: CachePolicy)
      ensures this.engine == engine && this.policy == policy && records == [] && submitted == [] && accepted == map[]
      ensures !verified
    {
      this.engine, this.policy, records, submitted, accepted, verified := engine, policy, [], [], map[], false;
    }

    /** One read, whose usage is accepted exactly when the observation succeeds. */
    twostate predicate Observed(ok: bool)
      reads this, engine, engine.daemon
    {
      var from := |old(engine.log)|;
      old(engine.log) <= engine.log && |engine.log| == from + 1 && engine.log[from].Read? && Faithful(accepted, engine.log) &&
      (if ok
       then Saw(engine.log[from], CacheUsage) && accepted == old(accepted)[from := records] && Lists(records, engine.daemon.cache)
       else accepted == old(accepted) && records == old(records)) &&
      (engine.daemon.quiet ==>
         engine.daemon.world == old(engine.daemon.world) && engine.daemon.cache == old(engine.daemon.cache))
    }

    /** Replaces the known records, or leaves them and fails. */
    method Observe() returns (r: Result<Option<Totals>, Stop>)
      requires engine.Ready() && Faithful(accepted, engine.log)
      modifies this`records, this`accepted, engine`log, engine.daemon`world, engine.daemon`cache
      ensures engine.Ready() && Faithful(accepted, engine.log)
      ensures policy.mode.OffCache? ==> r == Success(None) && engine.log == old(engine.log) && accepted == old(accepted) &&
                                        engine.daemon.world == old(engine.daemon.world)
      ensures !policy.mode.OffCache? ==> Observed(r.Success?)
      ensures r.Success? && !policy.mode.OffCache? ==>
                r.value.Some? && r.value.value.reported == r.value.value.shared + r.value.value.nonShared &&
                r.value.value.nonShared == Bytes(records, Some(false))
    {
      if policy.mode.OffCache? {
        return Success(None);
      }
      var got := engine.Get(CacheUsage);
      assert Faithful(accepted, engine.log);
      if got.Failure? {
        return Failure(got.error);
      }
      var read :- ReadReply(engine.daemon.cache);
      AcceptedIsFaithful(accepted, engine.log, read);
      records := read;
      accepted := accepted[|engine.log| - 1 := read];
      BytesAddUp(records);
      return Success(Some(Totals(Bytes(records, None), Bytes(records, Some(true)), Bytes(records, Some(false)))));
    }

    /** Establishes the backend; without it nothing is pruned. */
    method Preflight() returns (r: Result<(), Stop>)
      requires engine.Ready() && Faithful(accepted, engine.log)
      modifies this`records, this`accepted, this`verified, engine`log, engine.daemon`world, engine.daemon`cache
      ensures engine.Ready() && Faithful(accepted, engine.log) && old(engine.log) <= engine.log
      ensures engine.daemon.quiet ==>
                engine.daemon.world == old(engine.daemon.world) && engine.daemon.cache == old(engine.daemon.cache)
      ensures r.Success? ==> verified
    {
      if policy.mode.OffCache? {
        verified := true;
        return Success(());
      }
      var _ :- engine.Remaining();
      var established: bool := *;
      if !established {
        return Failure(Failed(if engine.mutationStarted then 6 else 2));
      }
      var _ :- Observe();
      verified := true;
      return Success(());
    }

    /** An observation during apply; failing here, the later stages must stop. */
    method ApplyObservation() returns (r: Result<Totals, Stop>)
      requires engine.Ready() && Faithful(accepted, engine.log) && !policy.mode.OffCache?
      modifies this`records, this`accepted, engine`log, engine.daemon`world, engine.daemon`cache
      ensures engine.Ready() && Observed(r.Success?)
      ensures r.Success? ==> r.value.nonShared == Bytes(records, Some(false))
      ensures r.Failure? ==> r.error in {Failed(5), Failed(6), Died}
    {
      var seen := Observe();
      match seen
      case Success(totals) => return Success(totals.value);
      case Failure(stop) =>
        return Failure(if stop == Died then Died else if stop == Failed(6) then Failed(6) else Failed(5));
    }

    /** The rule of the run is this policy's, at this time. */
    ghost predicate Governed(cutoff: int) {
      engine.rule.ForCleanup? && engine.rule.cache == policy && engine.rule.now == cutoff
    }

    /** What a request may have deleted on a daemon that others leave alone. */
    twostate predicate Deleted(cutoff: int, age: bool)
      reads this, engine, engine.daemon
    {
      engine.daemon.quiet ==>
        engine.daemon.world == old(engine.daemon.world) &&
        (submitted == old(submitted) ==> engine.daemon.cache == old(engine.daemon.cache)) &&
        OnlyMayGo(engine.daemon.cache, old(engine.daemon.cache), policy.includeInternal, Threshold(policy, cutoff, age))
    }

    /** At most one request was made, from the observation at this position. */
    twostate predicate AtMostOne(cutoff: int, age: bool, at: nat)
      reads this, engine
    {
      submitted == old(submitted) ||
      exists s :: submitted == old(submitted) + [s] && Lawful(s, policy, cutoff, engine.log, accepted) &&
                  s.unused.Some? == age && s.at == at
    }

    /** The request for the candidates of the last observation. */
    method Draft(cutoff: int, age: bool, ghost at: nat) returns (ids: seq<string>, ghost s: Submission)
      ensures ids == Candidates(records, policy.includeInternal, Threshold(policy, cutoff, age))
      ensures s.at == at && s.seen == records && s.ids == ids && s.unused.Some? == age
      ensures s.limit == if age then None else Some(policy.maxUsedSpace)
      ensures age ==> s.moment - s.unused.value * SECOND <= cutoff - policy.maxUnusedAge * SECOND
    {
      ids := Candidates(records, policy.includeInternal, Threshold(policy, cutoff, age));
      var passed: nat := *;
      var threshold, moment := cutoff - policy.maxUnusedAge * SECOND, cutoff + passed;
      var unused := UnusedSeconds(moment, threshold);
      RoundedAgeStaysBehind(moment, threshold);
      s := Submission(at, records, ids, moment, if age then Some(unused) else None,
                      if age then None else Some(policy.maxUsedSpace));
    }

    /** Sends the request, and keeps it if it went out. */
    method Send(ids: seq<string>, ghost request: Submission) returns (r: Result<(), Stop>)
      requires engine.Ready() && request.ids == ids && Spendable(engine.log, engine.rule, request)
      modifies this`submitted, engine`log, engine`mutationStarted, engine`calmSince, engine.daemon`world, engine.daemon`cache
      ensures engine.Sound() && Orderly(engine.log, engine.rule, r) && old(engine.log) <= engine.log
      ensures |engine.log| <= |old(engine.log)| + 2 && forall k :: |old(engine.log)| <= k < |engine.log| ==> !engine.log[k].Read?
      ensures submitted == old(submitted) ||
              (submitted == old(submitted) + [request] && Asked(engine.log, |old(engine.log)|, request))
      ensures Booked(submitted, engine.log, |old(engine.log)|)
      ensures engine.daemon.quiet ==>
                engine.daemon.world == old(engine.daemon.world) && OnlyLess(engine.daemon.cache, old(engine.daemon.cache)) &&
                (forall k :: k in old(engine.daemon.cache) && k !in ids ==> k in engine.daemon.cache) &&
                (submitted == old(submitted) ==> engine.daemon.cache == old(engine.daemon.cache))
    {
      r := engine.PruneCache(ids, request);
      if |engine.log| == |old(engine.log)| + 2 {
        submitted := submitted + [request];
      }
    }

    /** Submits the candidates of the last observation, if there are any. */
    method Submit(cutoff: int, age: bool) returns (r: Result<(), Stop>)
      requires engine.Ready() && Faithful(accepted, engine.log) && engine.log != []
      requires Governed(cutoff) && policy.mode.ScheduledCache?
      requires var at := |engine.log| - 1; at in accepted && accepted[at] == records
      requires Lists(records, engine.daemon.cache)
      requires !age ==> Bytes(records, Some(false)) > policy.maxUsedSpace
      modifies this`submitted, engine`log, engine`mutationStarted, engine`calmSince, engine.daemon`world, engine.daemon`cache
      ensures engine.Sound() && Orderly(engine.log, engine.rule, r) && old(engine.log) <= engine.log
      ensures AtMostOne(cutoff, age, |old(engine.log)| - 1) && Deleted(cutoff, age)
      ensures |engine.log| <= |old(engine.log)| + 2 && forall k :: |old(engine.log)| <= k < |engine.log| ==> !engine.log[k].Read?
      ensures Booked(submitted, engine.log, |old(engine.log)|)
    {
      var candidates, request := Draft(cutoff, age, |engine.log| - 1);
      RequestIsAllowed(request, policy, cutoff);
      if candidates == [] {
        return Success(());
      }
      r := Send(candidates, request);
      CandidatesOnly(engine.daemon.cache, old(engine.daemon.cache), records, candidates, policy.includeInternal,
                     Threshold(policy, cutoff, age), engine.daemon.quiet);
    }

    /** One stage: observe, and submit what it finds unless the budget is met already. After an observation that
        failed nothing is submitted. */
    method Stage(cutoff: int, age: bool) returns (r: Result<(), Stop>)
      requires engine.Ready() && Faithful(accepted, engine.log) && Governed(cutoff) && policy.mode.ScheduledCache?
      modifies this`records, this`accepted, this`submitted
      modifies engine`log, engine`mutationStarted, engine`calmSince, engine.daemon`world, engine.daemon`cache
      ensures engine.Sound() && Orderly(engine.log, engine.rule, r) && old(engine.log) <= engine.log
      ensures Faithful(accepted, engine.log) && Extends(old(accepted), accepted)
      ensures var from := |old(engine.log)|;
              AtMostOne(cutoff, age, from) && Booked(submitted, engine.log, from) &&
              (from !in accepted ==> submitted == old(submitted) && |engine.log| == from + 1) &&
              (r.Success? ==> from in accepted) && |engine.log| <= from + 3 && OneLook(engine.log, from) &&
              NothingAfterUnreadable(accepted, engine.log, from)
      ensures Deleted(cutoff, age)
    {
      var totals :- ApplyObservation();
      if age || totals.nonShared > policy.maxUsedSpace {
        ghost var log := engine.log;
        r := Submit(cutoff, age);
        FaithfulLater(accepted, log, engine.log);
      } else {
        r := Success(());
      }
      NothingAfterOne(accepted, engine.log, |old(engine.log)|);
    }

    /** What both stages together may have deleted. */
    twostate predicate Pruned(cutoff: int)
      reads this, engine, engine.daemon
    {
      engine.daemon.quiet ==>
        engine.daemon.world == old(engine.daemon.world) &&
        OnlyMayGo(engine.daemon.cache, old(engine.daemon.cache), policy.includeInternal, None) &&
        (!Budgeted(submitted) ==>
           OnlyMayGo(engine.daemon.cache, old(engine.daemon.cache), policy.includeInternal,
                     Some(cutoff - policy.maxUnusedAge * SECOND)))
    }

    method BothStages(cutoff: int) returns (r: Result<(), Stop>)
      requires engine.Ready() && Faithful(accepted, engine.log) && submitted == []
      requires Governed(cutoff) && policy.mode.ScheduledCache?
      modifies this`records, this`accepted, this`submitted
      modifies engine`log, engine`mutationStarted, engine`calmSince, engine.daemon`world, engine.daemon`cache
      ensures engine.Sound() && Orderly(engine.log, engine.rule, r) && old(engine.log) <= engine.log
      ensures Faithful(accepted, engine.log) && |submitted| <= 2 && AllLawful(submitted, policy, cutoff, engine.log, accepted)
      ensures NothingAfterUnreadable(accepted, engine.log, |old(engine.log)|)
      ensures Booked(submitted, engine.log, |old(engine.log)|)
      ensures Pruned(cutoff) && |engine.log| <= |old(engine.log)| + 6
    {
      r := Stage(cutoff, true);
      ghost var from := |old(engine.log)|;
      OneStage(submitted, cutoff, from);
      if r.Failure? {
        return;
      }
      ghost var middle, some, log, known := engine.daemon.cache, submitted, engine.log, accepted;
      r := Stage(cutoff, false);
      TwoStages(some, submitted, cutoff, log, known, from);
      NothingAfterTwo(accepted, log, engine.log, from);
      if engine.daemon.quiet {
        GoneInTwoSteps(engine.daemon.cache, middle, old(engine.daemon.cache), policy.includeInternal,
                       Some(cutoff - policy.maxUnusedAge * SECOND), None);
      }
    }

    /** The cache part of a run. Records in use, of unknown type, of unknown last use, or internal without opt-in
        are never submitted; each request follows an accepted observation with only the lease check in between; a
        budget request follows one that is over budget; and an unreadable observation is followed by no request. */
    method Prune(cutoff: int) returns (r: Result<(), Stop>)
      requires engine.Ready() && Faithful(accepted, engine.log) && submitted == [] && Governed(cutoff)
      modifies this`records, this`accepted, this`submitted
      modifies engine`log, engine`mutationStarted, engine`calmSince, engine.daemon`world, engine.daemon`cache
      ensures engine.Sound() && Orderly(engine.log, engine.rule, r) && old(engine.log) <= engine.log
      ensures Faithful(accepted, engine.log) && |submitted| <= 2 && AllLawful(submitted, policy, cutoff, engine.log, accepted)
      ensures NothingAfterUnreadable(accepted, engine.log, |old(engine.log)|)
      ensures Booked(submitted, engine.log, |old(engine.log)|)
      ensures !policy.mode.ScheduledCache? ==> submitted == [] && engine.log == old(engine.log)
      ensures Pruned(cutoff) && |engine.log| <= |old(engine.log)| + 7
    {
      if !policy.mode.ScheduledCache? {
        return Success(());
      }
      if !verified {
        return Failure(Failed(2));
      }
      var _ :- BothStages(cutoff);
      ghost var log, known := engine.log, accepted;
      var last := ApplyObservation();
      AllLawfulLater(submitted, policy, cutoff, log, known, engine.log, accepted);
      return if last.Success? then Success(()) else Failure(last.error);
    }

    lemma OneStage(all: seq<Submission>, cutoff: int, from: nat)
      requires all == [] || exists s :: all == [] + [s] && Lawful(s, policy, cutoff, engine.log, accepted) &&
                                        s.unused.Some? && s.at == from
      ensures |all| <= 1 && AllLawful(all, policy, cutoff, engine.log, accepted) && !Budgeted(all)
    {
    }

    lemma TwoStages(some: seq<Submission>, all: seq<Submission>, cutoff: int, log: seq<Entry>, known: map<nat, seq<Item>>,
                    from: nat)
      requires |some| <= 1 && AllLawful(some, policy, cutoff, log, known) && log <= engine.log && Extends(known, accepted)
      requires all == some || exists s :: all == some + [s] && Lawful(s, policy, cutoff, engine.log, accepted) &&
                                          s.unused == None && s.at == |log|
      requires from < |log| && Booked(some, log, from) && Booked(all, engine.log, |log|)
      ensures |all| <= 2 && AllLawful(all, policy, cutoff, engine.log, accepted) && Booked(all, engine.log, from)
      ensures all != some ==> Budgeted(all)
    {
      AllLawfulLater(some, policy, cutoff, log, known, engine.log, accepted);
      if all != some {
        assert all[|all| - 1].unused == None;
      }
      forall k | from <= k < |engine.log| && engine.log[k].Prune?
        ensures engine.log[k].request in all
      {
        assert k < |log| ==> engine.log[k] == log[k];
      }
    }
  }
}
