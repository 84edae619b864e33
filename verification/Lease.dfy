/** The live lease: a server thread of the maintenance coordinator answers, a guard inside the cleanup
    process asks before every mutating request, and any of them may be overtaken by a revocation. */
module Lease {
  import opened Runs
  import opened Wrappers

  type Pid = nat
  type ConnId = nat

  /** What the server looks at. `recordActive` stands for the durable record: present, active, under this
      lease's identifier, with the same activity lock. `bound` is the one cleanup process. */
  datatype Server = Server(alive: bool, recordActive: bool, known: bool, expired: bool, bound: Option<Pid>)

  /** How far the handler of one connection has come; each read happens at its own time. */
  datatype Stage =
    | Asked
    | SawRecord(ok: bool)
    | SawLease(ok: bool)
    | Judged(ok: bool)
    | Pended(ok: bool, pending: bool)
    | Replied(active: bool, pending: bool)

  /** `valid` says that the request equals what the server expects: run, daemon, policy, profile, image. */
  datatype Connection = Connection(peer: Pid, valid: bool, stage: Stage)

  /** A process that follows the guard: it asks, is let through once, sends one request, and asks again.
      A process whose guard raised sends nothing any more. */
  datatype Client = Idle | Asking(conn: ConnId) | Authorised | Sent | Failed

  datatype State = State(server: Server, conns: map<ConnId, Connection>, clients: map<Pid, Client>, sent: nat)

  datatype Step =
    // The coordinator
    | Complete | Expire | ChangeRecord | Die | Bind(pid: Pid)
    // A client
    | Start(p: Pid) | Connect(p: Pid, c: ConnId, valid: bool) | Receive(p: Pid, late: bool)
    | Discard(p: Pid) | Mutate(p: Pid) | Answered(p: Pid) | Raise(p: Pid)
    // The handler of a connection
    | ReadRecord(c: ConnId) | ReadLease(c: ConnId) | ReadClock(c: ConnId) | ReadPending(c: ConnId) | Reply(c: ConnId)

  predicate Initial(s: State) {
    s.conns == map[] && s.clients == map[] && s.sent == 0 && s.server.alive
  }

  /** The lease is over: completed, past its deadline, its coordinator dead, or its record changed. */
  predicate Revoked(s: State) {
    !s.server.alive || !s.server.recordActive || s.server.known || s.server.expired
  }

  predicate HandlerAt(s: State, c: ConnId) {
    s.server.alive && c in s.conns
  }

  predicate Enabled(s: State, step: Step) {
    match step
    case Complete => s.server.alive
    case Expire => true
    case ChangeRecord => true
    case Die => true
    case Bind(_) => s.server.alive && s.server.bound == None
    case Start(p) => p !in s.clients
    case Connect(p, c, _) => s.server.alive && p in s.clients && s.clients[p] == Idle && c !in s.conns
    case Receive(p, _) =>
      p in s.clients && s.clients[p].Asking? && s.clients[p].conn in s.conns &&
      s.conns[s.clients[p].conn].stage.Replied?
    case Discard(p) => p in s.clients && s.clients[p] == Authorised
    case Mutate(p) => p in s.clients && s.clients[p] == Authorised
    case Answered(p) => p in s.clients && s.clients[p] == Sent
    case Raise(p) => p in s.clients
    case ReadRecord(c) => HandlerAt(s, c) && s.conns[c].stage.Asked?
    case ReadLease(c) => HandlerAt(s, c) && s.conns[c].stage.SawRecord?
    case ReadClock(c) => HandlerAt(s, c) && s.conns[c].stage.SawLease?
    case ReadPending(c) => HandlerAt(s, c) && s.conns[c].stage.Judged?
    case Reply(c) => HandlerAt(s, c) && s.conns[c].stage.Pended?
  }

  function SetStage(s: State, c: ConnId, stage: Stage): (r: State)
    requires c in s.conns
  {
    s.(conns := s.conns[c := s.conns[c].(stage := stage)])
  }

  function SetClient(s: State, p: Pid, client: Client): (r: State) {
    s.(clients := s.clients[p := client])
  }

  /** What the guard makes of a reply: through, ask again while the process is not bound yet, or fail. */
  function Verdict(active: bool, pending: bool, late: bool): (r: Client) {
    if active && !pending then Authorised
    else if !active && pending && !late then Idle
    else Failed
  }

  function Do(s: State, step: Step): (r: State)
    requires Enabled(s, step)
  {
    match step
    case Complete => s.(server := s.server.(known := true))
    case Expire => s.(server := s.server.(expired := true))
    case ChangeRecord => s.(server := s.server.(recordActive := false))
    case Die => s.(server := s.server.(alive := false))
    case Bind(pid) => s.(server := s.server.(bound := Some(pid)))
    case Start(p) => SetClient(s, p, Idle)
    case Connect(p, c, valid) => SetClient(s, p, Asking(c)).(conns := s.conns[c := Connection(p, valid, Asked)])
    case Receive(p, late) =>
      var stage := s.conns[s.clients[p].conn].stage;
      SetClient(s, p, Verdict(stage.active, stage.pending, late))
    case Discard(p) => SetClient(s, p, Idle)
    case Mutate(p) => SetClient(s, p, Sent).(sent := s.sent + 1)
    case Answered(p) => SetClient(s, p, Idle)
    case Raise(p) => SetClient(s, p, Failed)
    case ReadRecord(c) => SetStage(s, c, SawRecord(s.conns[c].valid && s.server.recordActive))
    case ReadLease(c) => SetStage(s, c, SawLease(s.conns[c].stage.ok && !s.server.known))
    case ReadClock(c) => SetStage(s, c, Judged(s.conns[c].stage.ok && !s.server.expired))
    case ReadPending(c) => SetStage(s, c, Pended(s.conns[c].stage.ok, s.conns[c].stage.ok && s.server.bound == None))
    case Reply(c) =>
      var stage := s.conns[c].stage;
      SetStage(s, c, Replied(stage.ok && !stage.pending && s.server.bound == Some(s.conns[c].peer), stage.pending))
  }

  ghost predicate IsRun(run: seq<State>, steps: seq<Step>) {
    |run| == |steps| + 1 && Initial(run[0]) &&
    forall k {:trigger Position(k)} ::
      0 <= k < |steps| ==> Enabled(run[k], steps[k]) && run[k + 1] == Do(run[k], steps[k])
  }

  lemma StepAt(run: seq<State>, steps: seq<Step>, k: nat)
    requires IsRun(run, steps) && k < |steps|
    ensures Enabled(run[k], steps[k]) && run[k + 1] == Do(run[k], steps[k])
  {
    assert Position(k);
  }

  /** A reply of this connection can still be, or is, an admission. */
  predicate Promising(stage: Stage) {
    match stage
    case Asked => false
    case SawRecord(ok) => ok
    case SawLease(ok) => ok
    case Judged(ok) => ok
    case Pended(ok, _) => ok
    case Replied(active, _) => active
  }

  predicate ConnectionOk(s: State, conn: Connection) {
    (Promising(conn.stage) ==> conn.valid) &&
    (conn.stage.Pended? && conn.stage.pending ==> conn.stage.ok) &&
    (conn.stage.Replied? ==> !(conn.stage.active && conn.stage.pending)) &&
    (conn.stage.Replied? && conn.stage.active ==> s.server.bound == Some(conn.peer))
  }

  predicate ClientOk(s: State, p: Pid, client: Client) {
    (client.Asking? ==> client.conn in s.conns && s.conns[client.conn].peer == p) &&
    (client == Authorised || client == Sent ==> s.server.bound == Some(p))
  }

  ghost predicate Inv(s: State) {
    (forall c | c in s.conns :: ConnectionOk(s, s.conns[c])) &&
    (forall p | p in s.clients :: ClientOk(s, p, s.clients[p]))
  }

  lemma StepKeepsInv(s: State, step: Step)
    requires Inv(s) && Enabled(s, step)
    ensures Inv(Do(s, step))
  {
  }

  lemma {:induction false} RunKeepsInv(run: seq<State>, steps: seq<Step>, k: nat)
    requires IsRun(run, steps) && k < |run|
    ensures Inv(run[k])
  {
    if k > 0 {
      RunKeepsInv(run, steps, k - 1);
      StepAt(run, steps, k - 1);
      StepKeepsInv(run[k - 1], steps[k - 1]);
    }
  }

  lemma {:induction false} BindingStays(run: seq<State>, steps: seq<Step>, from: nat, to: nat)
    requires IsRun(run, steps) && from <= to < |run|
    ensures run[from].server.bound.Some? ==> run[to].server.bound == run[from].server.bound
  {
    if from < to {
      BindingStays(run, steps, from, to - 1);
      StepAt(run, steps, to - 1);
    }
  }

  /** Over the whole life of a server at most one process is ever told that the lease is active for it,
      and no reply is active and pending at once. */
  lemma AuthorityBindsOneProcess(run: seq<State>, steps: seq<Step>, i: nat, j: nat, c: ConnId, d: ConnId)
    requires IsRun(run, steps) && i <= j < |run|
    requires c in run[i].conns && run[i].conns[c].stage.Replied? && run[i].conns[c].stage.active
    requires d in run[j].conns && run[j].conns[d].stage.Replied? && run[j].conns[d].stage.active
    ensures run[i].conns[c].peer == run[j].conns[d].peer
    ensures !run[i].conns[c].stage.pending && run[i].conns[c].valid
  {
    RunKeepsInv(run, steps, i);
    RunKeepsInv(run, steps, j);
    BindingStays(run, steps, i, j);
  }

  /** The earlier reads of a handler whose reply may be an admission, one after the other and all after
      its connection was opened. */
  lemma {:induction false} ReadsWereGood(run: seq<State>, steps: seq<Step>, k: nat, c: ConnId)
    returns (atRecord: nat, atLease: nat, atClock: nat)
    requires IsRun(run, steps) && k < |run|
    requires c in run[k].conns && Promising(run[k].conns[c].stage)
    ensures atRecord <= k && run[atRecord].server.recordActive && c in run[atRecord].conns
    ensures var stage := run[k].conns[c].stage;
            (!stage.SawRecord? ==> atRecord <= atLease <= k && !run[atLease].server.known) &&
            (!stage.SawRecord? && !stage.SawLease? ==> atLease <= atClock <= k && !run[atClock].server.expired)
    decreases k
  {
    atRecord, atLease, atClock := k, k, k;
    if k > 0 {
      StepAt(run, steps, k - 1);
      var before := run[k - 1];
      if c in before.conns && Promising(before.conns[c].stage) {
        atRecord, atLease, atClock := ReadsWereGood(run, steps, k - 1, c);
        if before.conns[c].stage.SawRecord? && !run[k].conns[c].stage.SawRecord? {
          atLease := k - 1;
        } else if before.conns[c].stage.SawLease? && !run[k].conns[c].stage.SawLease? {
          atClock := k - 1;
        }
      } else {
        atRecord := k - 1;
      }
    }
  }

  /** The guard lets a process through only on a reply for that process, computed after it asked, at
      times when the record was active, the lease not completed and its deadline not past. */
  lemma CheckReturnsOnlyWhenLive(run: seq<State>, steps: seq<Step>, k: nat, p: Pid)
    returns (atRecord: nat, atLease: nat, atClock: nat)
    requires IsRun(run, steps) && k < |steps|
    requires p in run[k].clients && run[k].clients[p].Asking?
    requires p in run[k + 1].clients && run[k + 1].clients[p] == Authorised
    ensures run[k].server.bound == Some(p)
    ensures atRecord <= atLease <= atClock <= k
    ensures run[atRecord].server.recordActive && !run[atLease].server.known && !run[atClock].server.expired
    ensures run[k].clients[p].conn in run[atRecord].conns
  {
    RunKeepsInv(run, steps, k);
    StepAt(run, steps, k);
    atRecord, atLease, atClock := ReadsWereGood(run, steps, k, run[k].clients[p].conn);
  }

  /** After a revocation, whether the reply of this connection can still be an admission: all reads that
      are still to come would have to be good. */
  predicate Hopeful(server: Server, conn: Connection) {
    match conn.stage
    case Asked => false
    case SawRecord(ok) => ok && server.alive && !server.known && !server.expired
    case SawLease(ok) => ok && server.alive && !server.expired
    case Judged(ok) => ok && server.alive
    case Pended(ok, pending) => ok && !pending && server.alive
    case Replied(active, _) => active
  }

  /** A process that may still send one mutating request: let through already, or waiting for a reply
      most of which was computed before the revocation. */
  predicate Chance(s: State, p: Pid) {
    p in s.clients &&
    (s.clients[p] == Authorised ||
     (s.clients[p].Asking? && s.clients[p].conn in s.conns && Hopeful(s.server, s.conns[s.clients[p].conn])))
  }

  /** After a revocation no step creates a chance, and a request uses up the chance of its sender. */
  lemma ChancesOnlyShrink(s: State, step: Step, p: Pid)
    requires Inv(s) && Enabled(s, step) && Revoked(s)
    ensures Revoked(Do(s, step))
    ensures Chance(Do(s, step), p) ==> Chance(s, p)
    ensures step == Mutate(p) ==> Chance(s, p) && !Chance(Do(s, step), p) && Do(s, step).server.bound == Some(p)
  {
  }

  /** How many requests may still go out after a revocation. */
  ghost function Allowance(s: State): (r: nat)
    ensures r <= 1
  {
    if s.server.bound.Some? then (if Chance(s, s.server.bound.value) then 1 else 0)
    else if exists p :: Chance(s, p) then 1 else 0
  }

  lemma AllowanceOnlyShrinks(s: State, step: Step)
    requires Inv(s) && Enabled(s, step) && Revoked(s)
    ensures Revoked(Do(s, step))
    ensures Do(s, step).sent + Allowance(Do(s, step)) <= s.sent + Allowance(s)
  {
    var t := Do(s, step);
    forall p
      ensures Chance(t, p) ==> Chance(s, p)
    {
      ChancesOnlyShrink(s, step, p);
    }
    if step.Mutate? {
      ChancesOnlyShrink(s, step, step.p);
    }
  }

  /** After the lease is revoked in any way, at most one more mutating request is sent, by whomever and in
      whatever interleaving; and none if nobody had been let through or half-answered by then. */
  lemma {:induction false} AtMostOneAfterRevocation(run: seq<State>, steps: seq<Step>, from: nat, to: nat)
    requires IsRun(run, steps) && from <= to < |run| && Revoked(run[from])
    ensures Revoked(run[to])
    ensures run[to].sent <= run[from].sent + 1
    ensures run[to].sent + Allowance(run[to]) <= run[from].sent + Allowance(run[from])
  {
    if from < to {
      AtMostOneAfterRevocation(run, steps, from, to - 1);
      RunKeepsInv(run, steps, to - 1);
      StepAt(run, steps, to - 1);
      AllowanceOnlyShrinks(run[to - 1], steps[to - 1]);
    }
  }

  lemma NobodyLetThroughMeansNoMore(run: seq<State>, steps: seq<Step>, from: nat, to: nat)
    requires IsRun(run, steps) && from <= to < |run| && Revoked(run[from])
    requires forall p :: !Chance(run[from], p)
    ensures run[to].sent <= run[from].sent
  {
    AtMostOneAfterRevocation(run, steps, from, to);
  }
}
