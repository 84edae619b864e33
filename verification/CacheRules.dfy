/** What the build cache holds, and which prune requests its policy allows. */
module CacheRules {
  import opened Wrappers
  import opened Policy

  datatype CacheRecord = CacheRecord(inUse: bool, shared: bool, kind: Option<string>, size: int, lastUsed: Option<int>)

  datatype CacheMode = ScheduledCache | NativeCache | OffCache

  datatype CachePolicy = CachePolicy(mode: CacheMode, maxUnusedAge: int, maxUsedSpace: int, includeInternal: bool)

  type Item = (string, CacheRecord)

  /** The bytes of all records, or of those that are shared or not. */
  function Bytes(records: seq<Item>, shared: Option<bool>): (n: int) {
    if records == [] then 0
    else
      (if shared == None || shared.value == records[0].1.shared then records[0].1.size else 0) +
      Bytes(records[1..], shared)
  }

  /** The list names every record of the cache once, as it is. */
  ghost predicate Lists(records: seq<Item>, cache: map<string, CacheRecord>) {
    (forall id, record :: (id, record) in records <==> id in cache && cache[id] == record) &&
    forall j, k :: 0 <= j < k < |records| ==> records[j].0 != records[k].0
  }

  predicate Allowed(record: CacheRecord, includeInternal: bool) {
    !record.inUse &&
    record.kind in [Some("regular"), Some("source.local"), Some("source.git.checkout"), Some("exec.cachemount"),
                    Some("internal"), Some("frontend")] &&
    (includeInternal || record.kind !in [Some("internal"), Some("frontend")])
  }

  /** The record may go: nobody uses it, its type is known and opted for, and so is its last use. */
  predicate MayGo(record: CacheRecord, includeInternal: bool, threshold: Option<int>) {
    Allowed(record, includeInternal) && record.lastUsed.Some? &&
    (threshold == None || record.lastUsed.value < threshold.value)
  }

  /** What a stage asks about the last use of a record: the age stage a limit, the budget stage none. */
  function Threshold(policy: CachePolicy, cutoff: int, age: bool): (t: Option<int>) {
    if age then Some(cutoff - policy.maxUnusedAge * SECOND) else None
  }

  /** One prune request, and the observation it was made from: the log position of that read, what was seen,
      and what the request asks for. */
  datatype Submission = Submission(
    at: nat, seen: seq<Item>, ids: seq<string>, moment: int, unused: Option<int>, limit: Option<int>)

  ghost predicate Submittable(s: Submission, id: string, includeInternal: bool, threshold: Option<int>) {
    exists k :: 0 <= k < |s.seen| && s.seen[k].0 == id && MayGo(s.seen[k].1, includeInternal, threshold)
  }

  /** The request names only records that were seen and may go; an age request reaches back no further than the
      threshold, and a budget request follows a look at more than the budget. */
  ghost predicate WithinPolicy(s: Submission, policy: CachePolicy, cutoff: int) {
    var threshold := Threshold(policy, cutoff, s.unused.Some?);
    (forall id :: id in s.ids ==> Submittable(s, id, policy.includeInternal, threshold)) &&
    (s.unused.Some? ==> s.moment - s.unused.value * SECOND <= threshold.value) &&
    (s.unused == None ==> s.limit == Some(policy.maxUsedSpace) && Bytes(s.seen, Some(false)) > policy.maxUsedSpace)
  }
}
