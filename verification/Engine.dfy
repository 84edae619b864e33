/** The cleanup process as a client of one daemon: every request, what became of it, and what the daemon did. */
module Engines {
  import opened Wrappers
  import opened Policy
  import opened Usage
  import opened CacheRules
  import opened FilterText
  import opened References

  datatype Kind = Containers | Networks | Images

  /** Objects of the daemon by identifier; `names` says which image a reference resolves to. */
  datatype World = World(
    containers: map<string, Container>, networks: map<string, Network>, images: map<string, Image>,
    names: map<string, string>)

  /** Identifiers of the objects the daemon deleted for this run. */
  datatype Gone = Gone(containers: set<string>, networks: set<string>, images: set<string>) {
    predicate Within(other: Gone) {
      containers <= other.containers && networks <= other.networks && images <= other.images
    }

    predicate Has(kind: Kind, id: string) {
      match kind
      case Containers => id in containers
      case Networks => id in networks
      case Images => id in images
    }

    function Plus(kind: Kind, id: string): (g: Gone) {
      match kind
      case Containers => this.(containers := containers + {id})
      case Networks => this.(networks := networks + {id})
      case Images => this.(images := images + {id})
    }
  }

  const NOTHING := Gone({}, {}, {})

  /** The daemon's objects once some are deleted: endpoints of deleted containers go with them, and so do the
      names of deleted images. */
  function After(world: World, gone: Gone): (w: World) {
    World(world.containers - gone.containers,
          map n | n in world.networks && n !in gone.networks :: Detached(world.networks[n], gone.containers),
          world.images - gone.images,
          map r | r in world.names && world.names[r] !in gone.images :: world.names[r])
  }

  lemma DetachedTwice(item: Network, some: set<string>, more: set<string>)
    ensures Detached(Detached(item, some), more) == Detached(item, some + more)
  {
    if item.attached.Some? {
      assert item.attached.value - some - more == item.attached.value - (some + more);
    }
  }

  /** Deleting one more object is a deletion step of the daemon. */
  lemma AfterOneMore(world: World, gone: Gone, kind: Kind, id: string)
    ensures After(After(world, gone), NOTHING.Plus(kind, id)) == After(world, gone.Plus(kind, id))
  {
    var w, one, all := After(world, gone), NOTHING.Plus(kind, id), gone.Plus(kind, id);
    var left, right := After(w, one), After(world, all);
    assert all == Gone(gone.containers + one.containers, gone.networks + one.networks, gone.images + one.images);
    forall n | n in world.networks
      ensures Detached(Detached(world.networks[n], gone.containers), one.containers) ==
              Detached(world.networks[n], all.containers)
    {
      DetachedTwice(world.networks[n], gone.containers, one.containers);
    }
    assert left.networks == right.networks;
    assert left.containers == right.containers;
    assert left.images == right.images;
    NamesOneMore(world, gone, one, all);
  }

  lemma NamesOneMore(world: World, gone: Gone, one: Gone, all: Gone)
    requires all.images == gone.images + one.images
    ensures After(After(world, gone), one).names == After(world, all).names
  {
  }

  lemma AfterNothing(world: World)
    ensures After(world, NOTHING) == world
  {
    forall n | n in world.networks
      ensures Detached(world.networks[n], {}) == world.networks[n]
    {
      if world.networks[n].attached.Some? {
        assert world.networks[n].attached.value - {} == world.networks[n].attached.value;
      }
    }
    assert world.containers - {} == world.containers;
    assert world.images - {} == world.images;
  }

  /** The references that stay when some are dropped. */
  function Without(refs: seq<Option<string>>, dropped: set<Option<string>>): (r: seq<Option<string>>)
    ensures |r| <= |refs|
    ensures forall ref :: ref in r <==> ref in refs && ref !in dropped
  {
    if refs == [] then [] else (if refs[0] in dropped then [] else [refs[0]]) + Without(refs[1..], dropped)
  }

  function WithoutTag(item: Image, ref: string, digests: set<Option<string>>): (r: Image) {
    item.(tags := Listed(Without(Refs(item.tags), {Some(ref)})), digests := Listed(Without(Refs(item.digests), digests)))
  }

  /** The world after a reference is untagged. Digests, and names besides the remaining tags, may go with it; so
      may the image itself, once it has no tag left. */
  function Untagged(w: World, ref: string, keep: bool, digests: set<Option<string>>, names: set<string>): (v: World)
    requires ref in w.names && w.names[ref] in w.images
  {
    var id := w.names[ref];
    var item := WithoutTag(w.images[id], ref, digests);
    var stays := keep || Refs(item.tags) != [];
    w.(images := if stays then w.images[id := item] else w.images - {id},
       names := map r | r in w.names && r != ref &&
                        (w.names[r] != id || (stays && (r in names || Some(r) in Refs(item.tags)))) :: w.names[r])
  }

  /** How a run stops early. Status answers carry code 5; a process that died has no code at all. */
  type Code = c: nat | 2 <= c <= 6 witness 2

  datatype Stop = Failed(code: Code) | Refused(status: nat) | Died

  /** The reply to an image removal: not of the documented shape, or the references it untagged. */
  datatype Reply = Odd | Removal(untagged: seq<string>, deleted: nat)

  datatype Outcome = Lost | Status(status: nat) | Replied(reply: Reply)

  /** What a deletion was decided on: the metadata of the object, the containers that use anything, the images that
      are protected, and since which log position these were read. */
  datatype Basis =
    | OnContainer(container: Container)
    | OnNetwork(network: Network, name: Option<string>, users: map<string, Container>, from: nat)
    | OnImage(image: Image, users: map<string, Container>, protected: set<string>, from: nat)
    | OnTag(id: string, image: Image, users: map<string, Container>, protected: set<string>, from: nat)

  /** What a read asks for: a list of identifiers, one object, what a reference resolves to, the usage of the build
      cache, or something that decides about no object. */
  datatype Query = ListOf(listed: Kind) | One(of: Kind, id: string) | ByName(ref: string) | CacheUsage | Elsewhere

  /** A request of a run. A read carries what it asked for and what the daemon was when it answered. */
  datatype Entry =
    | Checked
    | Read(query: Query, ok: bool, world: World, cache: map<string, CacheRecord>)
    | Remove(kind: Kind, name: string, basis: Basis, outcome: Outcome)
    | Prune(request: Submission, outcome: Outcome)

  /** What a run may delete at all. */
  datatype Rule =
    | ForCleanup(policy: Settings, now: int, profile: Profile, pressured: Option<bool>, cache: CachePolicy)
    | ForTags(policy: Settings, wanted: set<string>)

  /** The decision about an object, on this basis, is to delete it. */
  predicate Allows(rule: Rule, kind: Kind, name: string, basis: Basis) {
    match basis
    case OnContainer(item) =>
      rule.ForCleanup? && kind == Containers && ContainerDecision(name, item, rule.policy, rule.now).eligible
    case OnNetwork(item, known, users, _) =>
      rule.ForCleanup? && kind == Networks &&
      NetworkDecision(name, item, rule.policy, rule.now, if ReferredTo(users, name, known) then {name} else {}).eligible
    case OnImage(item, users, protected, _) =>
      rule.ForCleanup? && kind == Images &&
      Eligible(ImageDecision(name, item, rule.policy, rule.now, ImageRefs(users), protected)) &&
      ImageProfile(item, rule.policy, rule.profile, rule.pressured) == None
    case OnTag(id, item, users, protected, _) =>
      rule.ForTags? && kind == Images && name in rule.wanted && Some(name) in Refs(item.tags) &&
      Eligible(ImageSafety(id, item, rule.policy, ImageRefs(users), protected))
  }

  /** An answer to this question. */
  predicate Saw(e: Entry, query: Query) {
    e.Read? && e.ok && e.query == query
  }

  predicate SawContainer(e: Entry, id: string, item: Container) {
    Saw(e, One(Containers, id)) && id in e.world.containers && e.world.containers[id] == item
  }

  predicate MissedContainer(e: Entry, id: string) {
    Saw(e, One(Containers, id)) && id !in e.world.containers
  }

  predicate SawName(e: Entry, ref: string, ids: set<string>) {
    Saw(e, ByName(ref)) && (ref in e.world.names ==> e.world.names[ref] in ids)
  }

  predicate SawNetworkName(e: Entry, id: string, name: Option<string>) {
    Saw(e, One(Networks, id)) && id in e.world.networks && e.world.networks[id].name == name
  }

  /** A container listed at `from` was read after it as it is in `users`, or found to be gone. */
  ghost predicate Collects(log: seq<Entry>, from: nat, users: map<string, Container>, c: string)
    requires from < |log| && log[from].Read?
  {
    (c in users ==> exists j :: from < j < |log| && SawContainer(log[j], c, users[c])) &&
    (c in log[from].world.containers && c !in users ==> exists j :: from < j < |log| && MissedContainer(log[j], c))
  }

  /** This was done for all listed containers but the rest. */
  ghost predicate Collecting(log: seq<Entry>, from: nat, users: map<string, Container>, rest: set<string>) {
    from < |log| && Saw(log[from], ListOf(Containers)) && users.Keys <= log[from].world.containers.Keys &&
    forall c {:trigger Collects(log, from, users, c)} :: c !in rest ==> Collects(log, from, users, c)
  }

  ghost predicate Collected(log: seq<Entry>, from: nat, users: map<string, Container>) {
    Collecting(log, from, users, {})
  }

  ghost predicate ResolvesOne(log: seq<Entry>, from: nat, protected: set<string>, ref: string) {
    exists j :: from <= j < |log| && SawName(log[j], ref, protected)
  }

  /** All protected references were resolved after `from`. */
  ghost predicate Resolved(log: seq<Entry>, from: nat, protection: Protection, protected: set<string>) {
    protection.imageIds <= protected &&
    forall ref {:trigger ResolvesOne(log, from, protected, ref)} ::
      ref in protection.imageReferences ==> ResolvesOne(log, from, protected, ref)
  }

  /** Nothing was deleted since. */
  ghost predicate Undisturbed(log: seq<Entry>, from: nat) {
    forall j :: from <= j < |log| ==> !Mutation(log[j])
  }

  ghost predicate KnownBy(log: seq<Entry>, id: string, name: Option<string>) {
    exists j :: 0 <= j < |log| && SawNetworkName(log[j], id, name)
  }

  /** The log ends with the read of the object, and the rest of the basis was read since the last deletion. */
  ghost predicate Fits(log: seq<Entry>, rule: Rule, name: string, basis: Basis) {
    log != [] &&
    var last := log[|log| - 1];
    match basis
    case OnContainer(item) => SawContainer(last, name, item)
    case OnNetwork(item, known, users, from) =>
      Saw(last, One(Networks, name)) && name in last.world.networks && last.world.networks[name] == item &&
      Collected(log, from, users) && Undisturbed(log, from) && KnownBy(log, name, known)
    case OnImage(item, users, protected, from) =>
      Saw(last, One(Images, name)) && name in last.world.images && last.world.images[name] == item &&
      Collected(log, from, users) && Undisturbed(log, from) && Resolved(log, from, rule.policy.protection, protected)
    case OnTag(id, item, users, protected, from) =>
      Saw(last, ByName(name)) && name in last.world.names && last.world.names[name] == id &&
      id in last.world.images && last.world.images[id] == item && Collected(log, from, users) &&
      Undisturbed(log, from) && Resolved(log, from, rule.policy.protection, protected)
  }

  /** The log ends with the read of the usage that the request was made from, and the policy allows the request. */
  ghost predicate Spendable(log: seq<Entry>, rule: Rule, s: Submission) {
    rule.ForCleanup? && rule.cache.mode.ScheduledCache? && |log| == s.at + 1 && Saw(log[s.at], CacheUsage) &&
    Lists(s.seen, log[s.at].cache) && WithinPolicy(s, rule.cache, rule.now)
  }

  lemma CollectedLater(log: seq<Entry>, longer: seq<Entry>, from: nat, users: map<string, Container>)
    requires Collected(log, from, users) && log <= longer
    ensures Collected(longer, from, users)
  {
    forall c
      ensures Collects(longer, from, users, c)
    {
      assert Collects(log, from, users, c);
      if c in users {
        var j :| from < j < |log| && SawContainer(log[j], c, users[c]);
        assert SawContainer(longer[j], c, users[c]);
      } else if c in log[from].world.containers {
        var j :| from < j < |log| && MissedContainer(log[j], c);
        assert MissedContainer(longer[j], c);
      }
    }
  }

  lemma ResolvedSince(log: seq<Entry>, longer: seq<Entry>, from: nat, earlier: nat, protection: Protection, protected: set<string>)
    requires Resolved(log, from, protection, protected) && log <= longer && earlier <= from
    ensures Resolved(longer, earlier, protection, protected)
  {
    forall ref | ref in protection.imageReferences
      ensures ResolvesOne(longer, earlier, protected, ref)
    {
      assert ResolvesOne(log, from, protected, ref);
      var j :| from <= j < |log| && SawName(log[j], ref, protected);
      assert SawName(longer[j], ref, protected);
    }
  }

  lemma KnownByLater(log: seq<Entry>, longer: seq<Entry>, id: string, name: Option<string>)
    requires KnownBy(log, id, name) && log <= longer
    ensures KnownBy(longer, id, name)
  {
    var j :| 0 <= j < |log| && SawNetworkName(log[j], id, name);
    assert SawNetworkName(longer[j], id, name);
  }

  predicate Mutation(e: Entry) {
    e.Remove? || e.Prune?
  }

  /** The client learned from the answer what became of the request. */
  predicate Known(e: Entry) {
    match e
    case Remove(kind, _, _, Replied(reply)) => kind.Images? ==> reply.Removal?
    case Remove(_, _, _, Status(_)) => true
    case Prune(_, Replied(reply)) => reply.Removal?
    case Prune(_, Status(_)) => false
    case Prune(_, Lost) => false
    case Remove(_, _, _, Lost) => false
    case Checked => true
    case Read(_, _, _, _) => true
  }

  ghost predicate Settled(log: seq<Entry>) {
    forall i :: 0 <= i < |log| ==> Known(log[i])
  }

  /** Right before each mutation the lease was checked, and right before that each deletion was decided on fresh
      data, and each cache request was made from what had just been read. */
  ghost predicate Guarded(log: seq<Entry>, rule: Rule) {
    forall i: nat {:trigger WellGuarded(log, i, rule)} :: i < |log| ==> WellGuarded(log, i, rule)
  }

  ghost predicate WellGuarded(log: seq<Entry>, i: nat, rule: Rule)
    requires i < |log|
  {
    Mutation(log[i]) ==>
      i > 0 && log[i - 1] == Checked &&
      (log[i].Remove? ==>
         Allows(rule, log[i].kind, log[i].name, log[i].basis) && Fits(log[..i - 1], rule, log[i].name, log[i].basis)) &&
      (log[i].Prune? ==> Spendable(log[..i - 1], rule, log[i].request))
  }

  /** The last request has an unknown outcome, no other one has, and the run stops for reconciliation. */
  ghost predicate Halted(log: seq<Entry>, stop: Stop) {
    |log| > 0 && Settled(log[..|log| - 1]) && Mutation(log[|log| - 1]) && !Known(log[|log| - 1]) &&
    (stop == Died || stop == Failed(6))
  }

  /** What every operation keeps: it goes on only with all outcomes known, or the run is over. */
  ghost predicate Orderly<T>(log: seq<Entry>, rule: Rule, r: Result<T, Stop>) {
    Guarded(log, rule) &&
    match r
    case Success(_) => Settled(log)
    case Failure(stop) => Settled(log) || Halted(log, stop)
  }

  ghost predicate Untouched(log: seq<Entry>) {
    forall i :: 0 <= i < |log| ==> !Mutation(log[i])
  }

  lemma GuardedLater(log: seq<Entry>, e: Entry, rule: Rule)
    requires Guarded(log, rule) && (Mutation(e) ==> WellGuarded(log + [e], |log|, rule))
    ensures Guarded(log + [e], rule)
  {
    var longer := log + [e];
    forall i: nat | i < |longer|
      ensures WellGuarded(longer, i, rule)
    {
      if i < |log| {
        assert WellGuarded(log, i, rule);
        assert i > 0 ==> longer[..i - 1] == log[..i - 1];
      }
    }
  }

  /** One more mutation right after a check: either its outcome is known or the run is over. */
  lemma OneMore(log: seq<Entry>, e: Entry, rule: Rule)
    requires Guarded(log, rule) && Settled(log) && log != [] && log[|log| - 1] == Checked && Mutation(e)
    requires e.Remove? ==> Allows(rule, e.kind, e.name, e.basis) && Fits(log[..|log| - 1], rule, e.name, e.basis)
    requires e.Prune? ==> Spendable(log[..|log| - 1], rule, e.request)
    ensures Guarded(log + [e], rule) && (log + [e])[..|log|] == log
    ensures Known(e) ==> Settled(log + [e])
    ensures !Known(e) ==> Halted(log + [e], Failed(6)) && Halted(log + [e], Died)
  {
    assert (log + [e])[..|log|] == log;
    assert (log + [e])[..|log| - 1] == log[..|log| - 1];
    GuardedLater(log, e, rule);
  }

  /** What the lease server says; the first flag says that the reply repeats the identity of this run. */
  datatype LeaseReply = Unreadable | LeaseAnswer(matching: bool, active: bool, pending: bool)

  /** The daemon answered a read, be it that there is no such object. */
  predicate Answers(r: Result<(), Stop>) {
    r.Success? || r.error == Refused(404)
  }

  datatype Wire = Broken | Answer(status: nat) | Expired | Overlong | Garbled | Body

  /** Some records went and nothing else changed. */
  ghost predicate OnlyLess(cache: map<string, CacheRecord>, before: map<string, CacheRecord>) {
    forall k :: k in cache ==> k in before && cache[k] == before[k]
  }

  class Daemon {
    /** Nobody but the run changes the daemon while it lasts. */
    const quiet: bool
    var world: World
    var cache: map<string, CacheRecord>
    ghost var gone: Gone
    ghost var untagged: set<string>

    constructor (quiet: bool, world: World, cache: map<string, CacheRecord>)
      ensures this.quiet == quiet && this.world == world && this.cache == cache
      ensures gone == NOTHING && untagged == {}
    {
      this.quiet, this.world, this.cache, this.gone, this.untagged := quiet, world, cache, NOTHING, {};
    }

    /** Whatever others do between two requests. */
    method Disturb()
      modifies this`world, this`cache
      ensures quiet ==> world == old(world) && cache == old(cache)
    {
      if !quiet {
        var someWorld: World, someCache: map<string, CacheRecord> := *, *;
        world, cache := someWorld, someCache;
      }
    }

    method Delete(kind: Kind, id: string)
      modifies this`world, this`gone
      ensures world == After(old(world), NOTHING.Plus(kind, id))
      ensures gone == old(gone).Plus(kind, id)
    {
      world := After(world, NOTHING.Plus(kind, id));
      gone := gone.Plus(kind, id);
    }
  }

  /** One way to untag the reference. */
  ghost predicate IsUntagged(v: World, w: World, ref: string) {
    ref in w.names && w.names[ref] in w.images &&
    exists keep, digests, names :: v == Untagged(w, ref, keep, digests, names)
  }

  class Engine {
    const daemon: Daemon
    ghost const rule: Rule
    var mutationStarted: bool
    var verified: bool
    ghost var log: seq<Entry>
    /** Since this position of the log nothing was deleted. */
    ghost var calmSince: nat

    constructor (daemon: Daemon, ghost rule: Rule)
      ensures this.daemon == daemon && this.rule == rule && !mutationStarted && !verified && log == [] && calmSince == 0
    {
      this.daemon, this.rule, mutationStarted, verified, log, calmSince := daemon, rule, false, false, [], 0;
    }

    ghost predicate Sound()
      reads this
    {
      Guarded(log, rule) && (mutationStarted || Untouched(log)) && calmSince <= |log| && Undisturbed(log, calmSince)
    }

    ghost predicate Ready()
      reads this
    {
      Sound() && Settled(log)
    }

    /** Time, a signal or a crash can end the run at any point. */
    method Remaining() returns (r: Result<(), Stop>)
      ensures r.Failure? ==> r.error == Failed(6) || r.error == Died
    {
      var stop: Option<bool> := *;
      match stop
      case None => return Success(());
      case Some(true) => return Failure(Failed(6));
      case Some(false) => return Failure(Died);
    }

    /** One exchange. Once a mutation was started, everything but a status answer asks for reconciliation. */
    method Exchange() returns (r: Result<(), Stop>)
      ensures r.Failure? && r.error.Failed? ==> r.error.code in {3, 5, 6} && (mutationStarted ==> r.error.code == 6)
      ensures r.Failure? && r.error.Refused? ==> !(200 <= r.error.status < 300)
    {
      var _ :- Remaining();
      var wire: Wire := *;
      match wire
      case Broken => return Failure(Failed(if mutationStarted then 6 else 3));
      case Answer(n) => return if 200 <= n < 300 then Success(()) else Failure(Refused(n));
      case Expired => return Failure(Failed(if mutationStarted then 6 else 3));
      case Overlong => return Failure(Failed(if mutationStarted then 6 else 5));
      case Garbled => return Failure(Failed(if mutationStarted then 6 else 5));
      case Body => return Success(());
    }

    /** A read; the daemon may have changed since the last request. */
    method Get(query: Query) returns (r: Result<(), Stop>)
      requires Ready()
      modifies this`log, daemon`world, daemon`cache
      ensures Ready() && log == old(log) + [Read(query, Answers(r), daemon.world, daemon.cache)]
      ensures daemon.quiet ==> daemon.world == old(daemon.world) && daemon.cache == old(daemon.cache)
    {
      daemon.Disturb();
      r := Exchange();
      GuardedLater(log, Read(query, Answers(r), daemon.world, daemon.cache), rule);
      log := log + [Read(query, Answers(r), daemon.world, daemon.cache)];
    }

    method Preflight() returns (r: Result<(), Stop>)
      requires Ready()
      modifies this`log, this`verified, daemon`world, daemon`cache
      ensures Ready() && old(log) <= log && |log| <= |old(log)| + 2
      ensures daemon.quiet ==> daemon.world == old(daemon.world) && daemon.cache == old(daemon.cache)
      ensures r.Success? ==> verified
      ensures old(verified) ==> verified
    {
      var _ :- Get(Elsewhere);
      var _ :- Get(Elsewhere);
      var unsuitable: Option<bool> := *;
      if unsuitable.Some? {
        return Failure(Failed(if unsuitable.value then 2 else 3));
      }
      verified := true;
      return Success(());
    }

    /** Asks the lease server until the lease is active for this process, for as long as the answer is that no
        process is bound yet and the deadline has not passed. */
    method CheckLease() returns (r: Result<(), Stop>, ghost last: LeaseReply)
      ensures r.Success? ==> last == LeaseAnswer(true, true, false)
      ensures r.Failure? && r.error.Failed? ==> r.error.code == 6 || (!mutationStarted && r.error.code == 4)
      ensures r.Failure? ==> !r.error.Refused?
    {
      last := Unreadable;
      var code := if mutationStarted then 6 else 4;
      var time := Remaining();
      if time.Failure? {
        return time, last;
      }
      var polls: nat := *;
      while true
        decreases polls
      {
        var reply: LeaseReply := *;
        last := reply;
        if reply == LeaseAnswer(true, true, false) {
          return Success(()), last;
        }
        if reply != LeaseAnswer(true, false, true) || polls == 0 {
          return Failure(Failed(code)), last;
        }
        polls := polls - 1;
      }
    }

    /** The lease check that comes before each mutation; it starts nothing itself. */
    method Guard() returns (r: Result<(), Stop>)
      requires Ready()
      modifies this`log
      ensures Ready() && (r.Success? ==> log == old(log) + [Checked]) && (r.Failure? ==> log == old(log))
      ensures r.Failure? && r.error.Failed? ==> r.error.code == 6 || (!mutationStarted && r.error.code == 4)
      ensures r.Failure? ==> !r.error.Refused?
    {
      var _, reply :- CheckLease();
      GuardedLater(log, Checked, rule);
      log := log + [Checked];
      return Success(());
    }

    /** What comes before any mutation is sent: a good argument, a verified daemon, a live lease, and time left. */
    method Approach(valid: bool) returns (r: Result<(), Stop>)
      requires Ready()
      modifies this`log, this`mutationStarted
      ensures Ready() && (r.Success? ==> log == old(log) + [Checked] && mutationStarted && valid)
      ensures r.Failure? ==> (log == old(log) || log == old(log) + [Checked]) && Orderly(log, rule, r) && !r.error.Refused?
    {
      if !valid {
        return Failure(Failed(2));
      }
      if !verified {
        return Failure(Failed(3));
      }
      var _ :- Guard();
      var _ :- Remaining();
      mutationStarted := true;
      return Success(());
    }

    /** One deletion on the wire. With a reply the object is gone; where the daemon answers 404 or 409 nothing
        happened; otherwise the client cannot tell. */
    method SendDeletion(kind: Kind, id: string) returns (o: Outcome, stop: Stop, ghost did: bool)
      requires mutationStarted
      modifies daemon`world, daemon`cache, daemon`gone
      ensures match o
              case Lost => stop == Failed(6) || stop == Died
              case Status(n) => stop == Refused(n)
              case Replied(_) => did
      ensures o in {Status(404), Status(409)} ==> !did
      ensures daemon.gone == if did then old(daemon.gone).Plus(kind, id) else old(daemon.gone)
      ensures daemon.quiet ==>
                daemon.world == if did then After(old(daemon.world), NOTHING.Plus(kind, id)) else old(daemon.world)
    {
      daemon.Disturb();
      var exchange := Exchange();
      var deleted: bool := *;
      deleted := exchange.Success? || (deleted && exchange.error !in {Refused(404), Refused(409)});
      did := deleted;
      if deleted {
        daemon.Delete(kind, id);
      }
      match exchange
      case Success(_) =>
        var reply: Reply := *;
        return Replied(reply), Died, deleted;
      case Failure(Refused(n)) => return Status(n), Refused(n), deleted;
      case Failure(e) => return Lost, e, deleted;
    }

    /** Asks the daemon to delete one object, under a fresh lease check. */
    method RemoveObject(kind: Kind, id: string, ghost basis: Basis) returns (r: Result<Reply, Stop>, ghost did: bool)
      requires Ready() && Allows(rule, kind, id, basis) && Fits(log, rule, id, basis)
      modifies this`log, this`mutationStarted, this`calmSince, daemon`world, daemon`cache, daemon`gone
      ensures Sound() && old(log) <= log && |log| <= |old(log)| + 2
      ensures r.Success? ==> did && |log| > 0 && Settled(log[..|log| - 1]) &&
                             log[|log| - 1] == Remove(kind, id, basis, Replied(r.value))
      ensures r.Success? && (kind == Images ==> r.value.Removal?) ==> Settled(log)
      ensures r.Failure? ==> Orderly(log, rule, r)
      ensures r.Failure? && r.error in {Refused(404), Refused(409)} ==> !did
      ensures r.Failure? && r.error.Refused? ==> Settled(log)
      ensures daemon.gone == if did then old(daemon.gone).Plus(kind, id) else old(daemon.gone)
      ensures daemon.quiet ==>
                daemon.world == if did then After(old(daemon.world), NOTHING.Plus(kind, id)) else old(daemon.world)
    {
      did := false;
      var clear := Approach(if kind == Images then ImageId(id) || ReferenceName(id).Some? else ObjectId(id));
      if clear.Failure? {
        return Failure(clear.error), false;
      }
      assert log[..|log| - 1] == old(log);
      var outcome, stop, sent := SendDeletion(kind, id);
      OneMore(log, Remove(kind, id, basis, outcome), rule);
      log := log + [Remove(kind, id, basis, outcome)];
      calmSince := |log|;
      match outcome
      case Replied(reply) => return Success(reply), sent;
      case Status(_) => return Failure(stop), sent;
      case Lost => return Failure(stop), sent;
    }

    /** Like SendDeletion, for a tag. */
    method SendUntag(ref: string) returns (o: Outcome, stop: Stop, ghost did: bool)
      requires mutationStarted
      modifies daemon`world, daemon`cache, daemon`untagged
      ensures match o
              case Lost => stop == Failed(6) || stop == Died
              case Status(n) => stop == Refused(n)
              case Replied(_) => did
      ensures o in {Status(404), Status(409)} ==> !did
      ensures daemon.untagged == if did then old(daemon.untagged) + {ref} else old(daemon.untagged)
      ensures daemon.quiet && !did ==> daemon.world == old(daemon.world)
      ensures daemon.quiet && did && ref in old(daemon.world.names) && old(daemon.world.names[ref] in daemon.world.images) ==>
                IsUntagged(daemon.world, old(daemon.world), ref)
    {
      daemon.Disturb();
      var exchange := Exchange();
      var deleted: bool := *;
      deleted := exchange.Success? || (deleted && exchange.error !in {Refused(404), Refused(409)});
      did := deleted;
      if deleted {
        daemon.untagged := daemon.untagged + {ref};
        if ref in daemon.world.names && daemon.world.names[ref] in daemon.world.images {
          var keep: bool, digests: set<Option<string>>, names: set<string> := *, *, *;
          daemon.world := Untagged(daemon.world, ref, keep, digests, names);
        }
      }
      match exchange
      case Success(_) =>
        var reply: Reply := *;
        return Replied(reply), Died, deleted;
      case Failure(Refused(n)) => return Status(n), Refused(n), deleted;
      case Failure(e) => return Lost, e, deleted;
    }

    /** Asks the daemon to remove one tag, under a fresh lease check. */
    method RemoveReference(ref: string, ghost basis: Basis) returns (r: Result<Reply, Stop>, ghost did: bool)
      requires Ready() && Allows(rule, Images, ref, basis) && Fits(log, rule, ref, basis)
      modifies this`log, this`mutationStarted, this`calmSince, daemon`world, daemon`cache, daemon`untagged
      ensures Sound() && old(log) <= log
      ensures r.Success? ==> did && |log| > 0 && Settled(log[..|log| - 1]) &&
                             log[|log| - 1] == Remove(Images, ref, basis, Replied(r.value))
      ensures r.Success? && r.value.Removal? ==> Settled(log)
      ensures r.Failure? ==> Orderly(log, rule, r)
      ensures r.Failure? && r.error in {Refused(404), Refused(409)} ==> !did
      ensures r.Failure? && r.error.Refused? ==> Settled(log)
      ensures daemon.untagged == if did then old(daemon.untagged) + {ref} else old(daemon.untagged)
      ensures daemon.quiet && !did ==> daemon.world == old(daemon.world)
      ensures daemon.quiet && did && ref in old(daemon.world.names) && old(daemon.world.names[ref] in daemon.world.images) ==>
                IsUntagged(daemon.world, old(daemon.world), ref)
    {
      did := false;
      var clear := Approach(ImageId(ref) || ReferenceName(ref).Some?);
      if clear.Failure? {
        return Failure(clear.error), false;
      }
      assert log[..|log| - 1] == old(log);
      var outcome, stop, sent := SendUntag(ref);
      OneMore(log, Remove(Images, ref, basis, outcome), rule);
      log := log + [Remove(Images, ref, basis, outcome)];
      calmSince := |log|;
      match outcome
      case Replied(reply) => return Success(reply), sent;
      case Status(_) => return Failure(stop), sent;
      case Lost => return Failure(stop), sent;
    }

    /** One prune on the wire. The daemon deletes some of the records that the pattern matches. */
    method SendPrune(pattern: string) returns (o: Outcome, stop: Stop)
      requires mutationStarted
      modifies daemon`world, daemon`cache
      ensures match o
              case Lost => stop == Failed(6) || stop == Died
              case Status(n) => stop == Refused(n)
              case Replied(_) => true
      ensures daemon.quiet ==> daemon.world == old(daemon.world)
      ensures daemon.quiet ==> OnlyLess(daemon.cache, old(daemon.cache))
      ensures daemon.quiet ==>
                forall k :: k in old(daemon.cache) && !Matches(pattern, k) ==> k in daemon.cache
    {
      daemon.Disturb();
      var exchange := Exchange();
      var chosen: set<string> := *;
      daemon.cache := daemon.cache - set k | k in daemon.cache && k in chosen && Matches(pattern, k);
      match exchange
      case Success(_) =>
        var reply: Reply := *;
        return Replied(reply), Died;
      case Failure(Refused(n)) => return Status(n), Refused(n);
      case Failure(e) => return Lost, e;
    }

    /** Asks the daemon to prune the given cache records, under a fresh lease check. Here a status answer leaves
        the outcome open as well. */
    method PruneCache(ids: seq<string>, ghost request: Submission) returns (r: Result<(), Stop>)
      requires Ready() && request.ids == ids && Spendable(log, rule, request)
      modifies this`log, this`mutationStarted, this`calmSince, daemon`world, daemon`cache
      ensures Sound() && Orderly(log, rule, r)
      ensures log == old(log) || log == old(log) + [Checked] ||
              exists o :: log == old(log) + [Checked, Prune(request, o)]
      ensures r.Success? ==> ids != [] && CacheIds(ids) && |log| == |old(log)| + 2
      ensures daemon.quiet ==> daemon.world == old(daemon.world)
      ensures daemon.quiet ==> OnlyLess(daemon.cache, old(daemon.cache))
      ensures daemon.quiet ==> forall k :: k in old(daemon.cache) && k !in ids ==> k in daemon.cache
      ensures daemon.quiet && |log| < |old(log)| + 2 ==> daemon.cache == old(daemon.cache)
    {
      if ids == [] || !CacheIds(ids) {
        return Failure(Failed(2));
      }
      if !verified {
        return Failure(Failed(3));
      }
      var fits: bool := *;
      var _ :- Approach(fits);
      assert log[..|log| - 1] == old(log);
      PatternMatches(ids);
      var outcome, stop := SendPrune(Pattern(ids));
      OneMore(log, Prune(request, outcome), rule);
      log := log + [Prune(request, outcome)];
      calmSince := |log|;
      assert log == old(log) + [Checked, Prune(request, outcome)];
      match outcome
      case Replied(reply) => return if reply.Odd? then Failure(Failed(6)) else Success(());
      case Status(_) => return Failure(Failed(6));
      case Lost => return Failure(stop);
    }
  }
}
