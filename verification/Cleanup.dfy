/** Planning and applying a cleanup on a daemon that may change between any two requests. */
module Cleanup {
  import opened Wrappers
  import opened Policy
  import opened Usage
  import opened Engines
  import opened Plans
  import opened Inventories
  import opened Cache

  class Report {
    var candidates: Gone
    var dependents: Gone
    var removed: Gone
    /** Removals the daemon answered with 404 or 409. */
    var refused: set<(Kind, string)>

    constructor ()
      ensures candidates == dependents == removed == NOTHING && refused == {}
    {
      candidates, dependents, removed, refused := NOTHING, NOTHING, NOTHING, {};
    }

    method Decide(kind: Kind, id: string, choice: Decision, dependent: bool)
      modifies this`candidates, this`dependents
      ensures dependents == if dependent then old(dependents).Plus(kind, id) else old(dependents)
      ensures candidates == if !dependent && choice.eligible then old(candidates).Plus(kind, id) else old(candidates)
    {
      if dependent {
        dependents := dependents.Plus(kind, id);
      } else if choice.eligible {
        candidates := candidates.Plus(kind, id);
      }
    }
  }

  // ---------------------------------------------------------------------------------------------------
  // Apply

  predicate ByTheseTerms(rule: Rule, t: Terms) {
    rule.ForCleanup? && rule.policy == t.policy && rule.now == t.now && rule.profile == t.profile &&
    rule.pressured == t.pressured
  }

  /** The run started with `w` and decides by `t`. On a daemon that others leave alone, the daemon is the initial
      one without what this run deleted, and everything deleted was announced. */
  ghost predicate OnCourse(inventory: Inventory, w: World, t: Terms)
    reads inventory, inventory.engine, inventory.engine.daemon
  {
    var daemon := inventory.engine.daemon;
    inventory.Justified() && t.policy == inventory.policy && t.pressured == inventory.sample &&
    ByTheseTerms(inventory.engine.rule, t) &&
    (daemon.quiet ==>
       daemon.world == After(w, daemon.gone) && Underway(w, t, daemon.gone) &&
       t.protected == ProtectedImages(w.names, t.policy.protection))
  }

  /** The requests that opening a stage takes at most: one for each object and protected reference, and six more. */
  function OpeningCost(w: World, policy: Settings): (n: nat) {
    6 + |w.containers.Keys| + |w.networks.Keys| + |w.images.Keys| + |policy.protection.imageReferences|
  }

  /** The requests spent at most on a network or image that the filter lets through. */
  function NetworkCost(w: World): (n: nat) {
    5 + |w.containers.Keys|
  }

  function ImageCost(w: World, policy: Settings): (n: nat) {
    NetworkCost(w) + |policy.protection.imageReferences|
  }

  lemma SmallerIsCheaper(some: set<string>, all: set<string>)
    requires some <= all
    ensures |some| <= |all|
  {
    assert all == some + (all - some);
  }

  lemma AfterIsCheaper(w: World, gone: Gone, policy: Settings)
    ensures OpeningCost(After(w, gone), policy) <= OpeningCost(w, policy)
    ensures NetworkCost(After(w, gone)) <= NetworkCost(w)
    ensures ImageCost(After(w, gone), policy) <= ImageCost(w, policy)
  {
    SmallerIsCheaper(After(w, gone).containers.Keys, w.containers.Keys);
    SmallerIsCheaper(After(w, gone).networks.Keys, w.networks.Keys);
    SmallerIsCheaper(After(w, gone).images.Keys, w.images.Keys);
  }

  /** Deletes one object and says so; false where the daemon answered that the object is gone or in use. */
  method RemoveAndReport(engine: Engine, report: Report, kind: Kind, id: string, ghost basis: Basis)
    returns (r: Result<bool, Stop>)
    requires engine.Ready() && Allows(engine.rule, kind, id, basis) && Fits(engine.log, engine.rule, id, basis)
    modifies engine`log, engine`mutationStarted, engine`calmSince, engine.daemon`world, engine.daemon`cache, engine.daemon`gone
    modifies report`removed, report`refused
    ensures engine.Sound() && Orderly(engine.log, engine.rule, r) && old(engine.log) <= engine.log
    ensures |engine.log| <= |old(engine.log)| + 2
    ensures old(report.refused) <= report.refused
    ensures r == Success(true) ==> engine.daemon.gone == old(engine.daemon.gone).Plus(kind, id)
    ensures r == Success(true) ==> report.removed == old(report.removed).Plus(kind, id)
    ensures r == Success(false) ==>
              engine.daemon.gone == old(engine.daemon.gone) && report.removed == old(report.removed) && report.refused != {}
    ensures r.Failure? ==> report.removed == old(report.removed)
    ensures engine.daemon.gone == old(engine.daemon.gone) || engine.daemon.gone == old(engine.daemon.gone).Plus(kind, id)
    ensures engine.daemon.quiet ==>
              (engine.daemon.world == old(engine.daemon.world) && engine.daemon.gone == old(engine.daemon.gone)) ||
              (engine.daemon.world == After(old(engine.daemon.world), NOTHING.Plus(kind, id)) &&
               engine.daemon.gone == old(engine.daemon.gone).Plus(kind, id))
  {
    var reply, did := engine.RemoveObject(kind, id, basis);
    match reply
    case Failure(stop) =>
      if stop in {Refused(404), Refused(409)} {
        report.refused := report.refused + {(kind, id)};
        return Success(false);
      }
      return Failure(stop);
    case Success(answer) =>
      if kind == Images && answer.Odd? {
        return Failure(Failed(6));
      }
      report.removed := report.removed.Plus(kind, id);
      return Success(true);
  }

  /** Deletes an object that the plan announces. */
  method RemovePlanned(inventory: Inventory, report: Report, kind: Kind, id: string, ghost basis: Basis,
                       ghost w: World, ghost t: Terms)
    returns (r: Result<(), Stop>)
    requires inventory.engine.Ready() && OnCourse(inventory, w, t)
    requires Allows(inventory.engine.rule, kind, id, basis) && Fits(inventory.engine.log, inventory.engine.rule, id, basis)
    requires inventory.engine.daemon.quiet ==> Planned(w, t).Has(kind, id)
    modifies report`removed, report`refused, inventory.engine`log, inventory.engine`mutationStarted, inventory.engine`calmSince
    modifies inventory.engine.daemon`world, inventory.engine.daemon`cache, inventory.engine.daemon`gone
    ensures inventory.engine.Sound() && Orderly(inventory.engine.log, inventory.engine.rule, r) && OnCourse(inventory, w, t)
    ensures old(inventory.engine.log) <= inventory.engine.log
    ensures |inventory.engine.log| <= |old(inventory.engine.log)| + 2
    ensures old(report.refused) <= report.refused
    ensures var daemon := inventory.engine.daemon;
            daemon.gone == old(daemon.gone) || daemon.gone == old(daemon.gone).Plus(kind, id)
    ensures r.Success? && old(report.removed == inventory.engine.daemon.gone) ==>
              report.removed == inventory.engine.daemon.gone
    ensures old(report.removed.Within(inventory.engine.daemon.gone)) ==>
              report.removed.Within(inventory.engine.daemon.gone)
    ensures r.Success? && report.refused == {} ==> inventory.engine.daemon.gone.Has(kind, id)
  {
    if inventory.engine.daemon.quiet {
      StepKeepsPlan(w, t, inventory.engine.daemon.gone, kind, id);
    }
    var done := RemoveAndReport(inventory.engine, report, kind, id, basis);
    match done
    case Failure(stop) => return Failure(stop);
    case Success(removed) =>
      assert removed || report.refused != {};
      return Success(());
  }

  method TryContainer(inventory: Inventory, report: Report, now: int, id: string, initial: Container,
                      ghost w: World, ghost t: Terms)
    returns (r: Result<(), Stop>)
    requires inventory.engine.Ready() && OnCourse(inventory, w, t) && t.now == now
    requires inventory.engine.daemon.quiet ==>
               id in inventory.engine.daemon.world.containers && initial == inventory.engine.daemon.world.containers[id]
    modifies report, inventory.engine`log, inventory.engine`mutationStarted, inventory.engine`calmSince
    modifies inventory.engine.daemon`world, inventory.engine.daemon`cache, inventory.engine.daemon`gone
    ensures inventory.engine.Sound() && Orderly(inventory.engine.log, inventory.engine.rule, r) && OnCourse(inventory, w, t)
    ensures old(inventory.engine.log) <= inventory.engine.log
    ensures old(report.refused) <= report.refused
    ensures r.Success? && old(report.removed == inventory.engine.daemon.gone) ==>
              report.removed == inventory.engine.daemon.gone
    ensures old(report.removed.Within(inventory.engine.daemon.gone)) ==>
              report.removed.Within(inventory.engine.daemon.gone)
    ensures var daemon := inventory.engine.daemon;
            daemon.gone == old(daemon.gone) || daemon.gone == old(daemon.gone).Plus(Containers, id)
    ensures inventory.engine.daemon.quiet && r.Success? && report.refused == {} && id in Planned(w, t).containers ==>
              id in inventory.engine.daemon.gone.containers
    ensures |inventory.engine.log| <= |old(inventory.engine.log)| +
              if ContainerDecision(id, initial, inventory.policy, now).eligible then 4 else 0
  {
    var engine := inventory.engine;
    if engine.daemon.quiet {
      ContainerStep(w, t, engine.daemon.gone, id);
    }
    var _ :- engine.Remaining();
    var choice := ContainerDecision(id, initial, inventory.policy, now);
    if !choice.eligible {
      report.Decide(Containers, id, choice, false);
      return Success(());
    }
    var _ :- engine.Guard();
    var item :- inventory.InspectContainer(id);
    if item == None {
      return Success(());
    }
    choice := ContainerDecision(id, item.value, inventory.policy, now);
    report.Decide(Containers, id, choice, false);
    if !choice.eligible {
      return Success(());
    }
    r := RemovePlanned(inventory, report, Containers, id, OnContainer(item.value), w, t);
  }

  /** What the reads of a recheck amount to. */
  lemma NetworkFits(start: seq<Entry>, log: seq<Entry>, longer: seq<Entry>, rule: Rule, id: string, item: Network,
                    known: Option<string>, users: map<string, Container>, from: nat)
    requires start <= longer && KnownBy(start, id, known)
    requires log <= longer && Collected(log, from, users) && Undisturbed(longer, from)
    requires longer != [] && Saw(longer[|longer| - 1], One(Networks, id))
    requires var world := longer[|longer| - 1].world; id in world.networks && world.networks[id] == item
    ensures Fits(longer, rule, id, OnNetwork(item, known, users, from))
  {
    CollectedLater(log, longer, from, users);
    KnownByLater(start, longer, id, known);
  }

  /** Fresh references and metadata of a network; nothing if it vanished. */
  method ReadNetwork(inventory: Inventory, id: string)
    returns (r: Result<Option<(Network, set<string>)>, Stop>, ghost basis: Basis)
    requires inventory.engine.Ready() && id in inventory.networks && NamesKnown(inventory.engine.log, inventory.networks)
    modifies inventory`containers, inventory.engine`log, inventory.engine.daemon`world, inventory.engine.daemon`cache
    ensures inventory.engine.Ready() && old(inventory.engine.log) <= inventory.engine.log
    ensures inventory.engine.daemon.quiet ==> inventory.engine.daemon.world == old(inventory.engine.daemon.world)
    ensures inventory.engine.daemon.quiet ==>
              |inventory.engine.log| + 2 <= |old(inventory.engine.log)| + NetworkCost(inventory.engine.daemon.world)
    ensures var world := inventory.engine.daemon.world;
            inventory.engine.daemon.quiet && r.Success? && id in world.networks ==>
              r.value.Some? && r.value.value.0 == world.networks[id] &&
              (id in r.value.value.1 <==> id in NetworkRefs(world.containers, inventory.networks))
    ensures r.Success? && r.value.Some? ==>
              Fits(inventory.engine.log, inventory.engine.rule, id, basis) && basis.OnNetwork? &&
              basis.network == r.value.value.0 &&
              (id in r.value.value.1 <==> ReferredTo(basis.users, id, basis.name))
  {
    basis := OnNetwork(inventory.networks[id], None, map[], 0);
    ghost var start := inventory.engine.log;
    var _ :- inventory.engine.Guard();
    ghost var from := |inventory.engine.log|;
    var _ :- inventory.RefreshContainers();
    ghost var log := inventory.engine.log;
    var item :- inventory.InspectNetwork(id);
    if item == None {
      return Success(None), basis;
    }
    var refs :- inventory.References({});
    assert inventory.containers - {} == inventory.containers;
    assert id in refs.1 <==> id in NetworkRefs(inventory.containers, inventory.networks);
    basis := OnNetwork(item.value, inventory.networks[id].name, inventory.containers, from);
    assert KnownBy(start, id, inventory.networks[id].name);
    NetworkFits(start, log, inventory.engine.log, inventory.engine.rule, id, item.value, inventory.networks[id].name,
                inventory.containers, from);
    return Success(Some((item.value, refs.1))), basis;
  }

  /** What fresh data decide about a network; nothing if it vanished. */
  method RecheckNetwork(inventory: Inventory, now: int, id: string)
    returns (r: Result<Option<Decision>, Stop>, ghost basis: Basis)
    requires inventory.engine.Ready() && id in inventory.networks && NamesKnown(inventory.engine.log, inventory.networks)
    modifies inventory`containers, inventory.engine`log, inventory.engine.daemon`world, inventory.engine.daemon`cache
    ensures inventory.engine.Ready() && old(inventory.engine.log) <= inventory.engine.log
    ensures inventory.engine.daemon.quiet ==> inventory.engine.daemon.world == old(inventory.engine.daemon.world)
    ensures inventory.engine.daemon.quiet ==>
              |inventory.engine.log| + 2 <= |old(inventory.engine.log)| + NetworkCost(inventory.engine.daemon.world)
    ensures var world := inventory.engine.daemon.world;
            inventory.engine.daemon.quiet && r.Success? && id in world.networks ==>
              r.value == Some(NetworkDecision(id, world.networks[id], inventory.policy, now,
                                              NetworkRefs(world.containers, inventory.networks)))
    ensures var rule := inventory.engine.rule;
            r.Success? && r.value.Some? && r.value.value.eligible ==>
              Fits(inventory.engine.log, rule, id, basis) &&
              (rule.ForCleanup? && rule.policy == inventory.policy && rule.now == now ==> Allows(rule, Networks, id, basis))
  {
    basis := OnNetwork(inventory.networks[id], None, map[], 0);
    var found, read :- ReadNetwork(inventory, id);
    basis := read;
    if found == None {
      return Success(None), basis;
    }
    return Success(Some(NetworkDecision(id, found.value.0, inventory.policy, now, found.value.1))), basis;
  }

  /** The full check of a network lets through what the plan announces. */
  method JudgeNetwork(inventory: Inventory, now: int, id: string, ghost w: World, ghost t: Terms)
    returns (r: Result<Option<Decision>, Stop>, ghost basis: Basis)
    requires inventory.engine.Ready() && OnCourse(inventory, w, t) && t.now == now && id in inventory.networks
    requires NamesKnown(inventory.engine.log, inventory.networks)
    requires inventory.engine.daemon.quiet ==>
               id in inventory.engine.daemon.world.networks &&
               inventory.engine.daemon.world.networks[id].name == inventory.networks[id].name
    modifies inventory`containers, inventory.engine`log, inventory.engine.daemon`world, inventory.engine.daemon`cache
    ensures inventory.engine.Ready() && OnCourse(inventory, w, t) && old(inventory.engine.log) <= inventory.engine.log
    ensures inventory.engine.daemon.quiet ==>
              inventory.engine.daemon.world == old(inventory.engine.daemon.world) &&
              |inventory.engine.log| + 2 <= |old(inventory.engine.log)| + NetworkCost(w)
    ensures inventory.engine.daemon.quiet && r.Success? ==> r.value.Some?
    ensures inventory.engine.daemon.quiet && r.Success? && r.value.value.eligible ==> id in Planned(w, t).networks
    ensures inventory.engine.daemon.quiet && r.Success? && id in Planned(w, t).networks ==>
              (inventory.engine.daemon.gone.containers == Planned(w, t).containers ==> r.value.value.eligible)
    ensures r.Success? && r.value.Some? && r.value.value.eligible ==>
              Allows(inventory.engine.rule, Networks, id, basis) && Fits(inventory.engine.log, inventory.engine.rule, id, basis)
  {
    if inventory.engine.daemon.quiet {
      AfterIsCheaper(w, inventory.engine.daemon.gone, inventory.policy);
      NetworkStep(w, t, inventory.engine.daemon.gone, id, inventory.networks);
    }
    r, basis := RecheckNetwork(inventory, now, id);
  }

  method TryNetwork(inventory: Inventory, report: Report, now: int, id: string, initial: Network,
                    ghost w: World, ghost t: Terms)
    returns (r: Result<(), Stop>)
    requires inventory.engine.Ready() && OnCourse(inventory, w, t) && t.now == now && id in inventory.networks
    requires NamesKnown(inventory.engine.log, inventory.networks)
    requires inventory.engine.daemon.quiet ==>
               id in inventory.engine.daemon.world.networks && initial == inventory.engine.daemon.world.networks[id] &&
               initial.name == inventory.networks[id].name
    modifies report, inventory`containers, inventory.engine`log, inventory.engine`mutationStarted, inventory.engine`calmSince
    modifies inventory.engine.daemon`world, inventory.engine.daemon`cache, inventory.engine.daemon`gone
    ensures inventory.engine.Sound() && Orderly(inventory.engine.log, inventory.engine.rule, r) && OnCourse(inventory, w, t)
    ensures old(inventory.engine.log) <= inventory.engine.log
    ensures old(report.refused) <= report.refused
    ensures r.Success? && old(report.removed == inventory.engine.daemon.gone) ==>
              report.removed == inventory.engine.daemon.gone
    ensures old(report.removed.Within(inventory.engine.daemon.gone)) ==>
              report.removed.Within(inventory.engine.daemon.gone)
    ensures var daemon := inventory.engine.daemon;
            daemon.gone == old(daemon.gone) || daemon.gone == old(daemon.gone).Plus(Networks, id)
    ensures var daemon := inventory.engine.daemon;
            daemon.quiet && r.Success? && report.refused == {} &&
            daemon.gone.containers == Planned(w, t).containers && id in Planned(w, t).networks ==>
              id in daemon.gone.networks
    ensures inventory.engine.daemon.quiet ==>
              |inventory.engine.log| <= |old(inventory.engine.log)| +
                if NetworkDecision(id, initial, inventory.policy, now, {}).eligible
                then NetworkCost(w) else 0
  {
    var engine := inventory.engine;
    if engine.daemon.quiet && id in Planned(w, t).networks && engine.daemon.gone.containers == Planned(w, t).containers {
      NetworkPassesFilter(w, t, engine.daemon.gone, id);
    }
    var _ :- engine.Remaining();
    var choice := NetworkDecision(id, initial, inventory.policy, now, {});
    if !choice.eligible {
      report.Decide(Networks, id, choice, false);
      return Success(());
    }
    var again, basis :- JudgeNetwork(inventory, now, id, w, t);
    if again == None {
      return Success(());
    }
    report.Decide(Networks, id, again.value, false);
    if !again.value.eligible {
      return Success(());
    }
    r := RemovePlanned(inventory, report, Networks, id, basis, w, t);
  }

  /** A missing sample only rules images out. */
  lemma ProfileNeedsSample(item: Image, policy: Settings, profile: Profile, sample: Option<bool>)
    ensures ImageProfile(item, policy, profile, None) == None ==> ImageProfile(item, policy, profile, sample) == None
  {
  }

  /** Fresh references, protections and metadata of an image; nothing if it vanished. */
  method ReadImage(inventory: Inventory, id: string)
    returns (r: Result<Option<(Image, set<string>)>, Stop>, ghost basis: Basis)
    requires inventory.engine.Ready() && inventory.Justified() && inventory.engine.rule.policy == inventory.policy
    modifies inventory`containers, inventory`protectedImages, inventory.engine`log
    modifies inventory.engine.daemon`world, inventory.engine.daemon`cache
    ensures inventory.engine.Ready() && inventory.Justified() && old(inventory.engine.log) <= inventory.engine.log
    ensures inventory.engine.daemon.quiet ==>
              |inventory.engine.log| + 2 <=
              |old(inventory.engine.log)| + ImageCost(inventory.engine.daemon.world, inventory.policy)
    ensures old(inventory.protectedImages) <= inventory.protectedImages
    ensures inventory.engine.daemon.quiet ==> inventory.engine.daemon.world == old(inventory.engine.daemon.world)
    ensures var world := inventory.engine.daemon.world;
            inventory.engine.daemon.quiet && r.Success? && id in world.images ==>
              r.value == Some((world.images[id], ImageRefs(world.containers)))
    ensures r.Success? && r.value.Some? ==>
              Fits(inventory.engine.log, inventory.engine.rule, id, basis) && basis.OnImage? &&
              basis.image == r.value.value.0 && ImageRefs(basis.users) == r.value.value.1 &&
              basis.protected == inventory.protectedImages
  {
    basis := OnContainer(Container(None, None, None, None, None, None, None));
    var _ :- inventory.engine.Guard();
    ghost var from := |inventory.engine.log|;
    var _ :- inventory.RefreshContainers();
    ghost var log := inventory.engine.log;
    var _ :- inventory.ResolveProtections();
    ghost var later := inventory.engine.log;
    var item :- inventory.InspectImage(id);
    if item == None {
      return Success(None), basis;
    }
    var refs :- inventory.References({});
    assert inventory.containers - {} == inventory.containers;
    basis := OnImage(item.value, inventory.containers, inventory.protectedImages, from);
    CollectedLater(log, inventory.engine.log, from, inventory.containers);
    ResolvedSince(later, inventory.engine.log, |log|, from, inventory.policy.protection, inventory.protectedImages);
    return Success(Some((item.value, refs.0))), basis;
  }

  /** What the full check decides on fresh data. */
  method DecideImage(inventory: Inventory, now: int, profile: Profile, tagged: bool, id: string, item: Image, refs: set<string>)
    returns (r: Result<Decision, Stop>)
    ensures var full := ImageDecision(id, item, inventory.policy, now, refs, inventory.protectedImages);
            var allowed := Eligible(full) && ImageProfile(item, inventory.policy, profile, inventory.sample) == None &&
                           IsTagged(item) == tagged;
            r.Success? ==> (r.value.eligible ==> allowed) && (inventory.steady && allowed ==> r.value.eligible)
    ensures r.Failure? ==> r.error == Failed(2)
  {
    var full := ImageDecision(id, item, inventory.policy, now, refs, inventory.protectedImages);
    if full.Failure? {
      return Failure(Failed(2));
    }
    if !full.value.eligible {
      return Success(full.value);
    }
    var pressured := inventory.Pressure();
    ProfileNeedsSample(item, inventory.policy, profile, inventory.sample);
    var disabled := ImageProfile(item, inventory.policy, profile, pressured);
    if disabled.Some? {
      return Success(disabled.value);
    }
    return Success(if IsTagged(item) != tagged then Excluded(StageChanged) else full.value);
  }

  /** The filter on the snapshot: it excludes only what the full check would exclude as well. */
  method FirstLook(inventory: Inventory, now: int, profile: Profile, id: string, initial: Image, ghost refs: set<string>)
    returns (r: Result<Decision, Stop>)
    ensures r.Failure? ==> r.error == Failed(2)
    ensures r.Success? && r.value.eligible ==>
              Eligible(ImageDecision(id, initial, inventory.policy, now, {}, inventory.protectedImages)) &&
              ImageProfile(initial, inventory.policy, profile, inventory.sample) == None
    ensures r.Success? && Eligible(ImageDecision(id, initial, inventory.policy, now, refs, inventory.protectedImages)) &&
            ImageProfile(initial, inventory.policy, profile, inventory.sample) == None && inventory.steady ==>
              r.value.eligible
  {
    ImageEligibilityShrinks(id, initial, inventory.policy, now, {}, inventory.protectedImages, refs, inventory.protectedImages);
    var first := ImageDecision(id, initial, inventory.policy, now, {}, inventory.protectedImages);
    if first.Failure? {
      return Failure(Failed(2));
    }
    if !first.value.eligible {
      return Success(first.value);
    }
    var pressured := inventory.Pressure();
    ProfileNeedsSample(initial, inventory.policy, profile, inventory.sample);
    return Success(ImageProfile(initial, inventory.policy, profile, pressured).GetOr(first.value));
  }

  /** The full check of an image on fresh data: it lets through what the plan announces. */
  method JudgeImage(inventory: Inventory, now: int, profile: Profile, tagged: bool, id: string, ghost w: World, ghost t: Terms)
    returns (r: Result<Option<Decision>, Stop>, ghost basis: Basis)
    requires inventory.engine.Ready() && OnCourse(inventory, w, t) && t.now == now && t.profile == profile
    requires inventory.engine.daemon.quiet ==>
               id in inventory.engine.daemon.world.images && inventory.protectedImages == t.protected
    modifies inventory`containers, inventory`protectedImages, inventory.engine`log
    modifies inventory.engine.daemon`world, inventory.engine.daemon`cache
    ensures inventory.engine.Ready() && OnCourse(inventory, w, t) && old(inventory.engine.log) <= inventory.engine.log
    ensures inventory.engine.daemon.quiet ==>
              inventory.protectedImages == t.protected && inventory.engine.daemon.world == old(inventory.engine.daemon.world) &&
              |inventory.engine.log| + 2 <= |old(inventory.engine.log)| + ImageCost(w, inventory.policy)
    ensures inventory.engine.daemon.quiet && r.Success? ==> r.value.Some? && id in w.images
    ensures inventory.engine.daemon.quiet && r.Success? && r.value.value.eligible ==> id in Planned(w, t).images
    ensures inventory.engine.daemon.quiet && r.Success? && inventory.steady && id in Planned(w, t).images ==>
              (IsTagged(w.images[id]) == tagged && inventory.engine.daemon.gone.containers == Planned(w, t).containers ==>
                 r.value.value.eligible)
    ensures r.Success? && r.value.Some? && r.value.value.eligible ==>
              Allows(inventory.engine.rule, Images, id, basis) && Fits(inventory.engine.log, inventory.engine.rule, id, basis)
  {
    if inventory.engine.daemon.quiet {
      AfterIsCheaper(w, inventory.engine.daemon.gone, inventory.policy);
      ImageStep(w, t, inventory.engine.daemon.gone, id);
      ProtectionStays(w, t, inventory.engine.daemon.gone);
    }
    basis := OnContainer(Container(None, None, None, None, None, None, None));
    var found, read :- ReadImage(inventory, id);
    basis := read;
    if found == None {
      return Success(None), basis;
    }
    var (item, refs) := found.value;
    var choice :- DecideImage(inventory, now, profile, tagged, id, item, refs);
    return Success(Some(choice)), basis;
  }

  /** The full check of an image on fresh data, and its removal. */
  method RecheckImage(inventory: Inventory, report: Report, now: int, profile: Profile, tagged: bool, id: string,
                      ghost w: World, ghost t: Terms)
    returns (r: Result<(), Stop>)
    requires inventory.engine.Ready() && OnCourse(inventory, w, t) && t.now == now && t.profile == profile
    requires inventory.engine.daemon.quiet ==>
               id in inventory.engine.daemon.world.images && inventory.protectedImages == t.protected
    modifies report, inventory`containers, inventory`protectedImages, inventory.engine`log, inventory.engine`mutationStarted, inventory.engine`calmSince
    modifies inventory.engine.daemon`world, inventory.engine.daemon`cache, inventory.engine.daemon`gone
    ensures inventory.engine.Sound() && Orderly(inventory.engine.log, inventory.engine.rule, r) && OnCourse(inventory, w, t)
    ensures inventory.engine.daemon.quiet ==> inventory.protectedImages == t.protected
    ensures old(inventory.engine.log) <= inventory.engine.log
    ensures old(report.refused) <= report.refused
    ensures r.Success? && old(report.removed == inventory.engine.daemon.gone) ==>
              report.removed == inventory.engine.daemon.gone
    ensures old(report.removed.Within(inventory.engine.daemon.gone)) ==>
              report.removed.Within(inventory.engine.daemon.gone)
    ensures var daemon := inventory.engine.daemon;
            daemon.gone == old(daemon.gone) || daemon.gone == old(daemon.gone).Plus(Images, id)
    ensures var daemon := inventory.engine.daemon;
            daemon.quiet && r.Success? && inventory.steady && report.refused == {} && id in Planned(w, t).images ==>
              (IsTagged(w.images[id]) == tagged && daemon.gone.containers == Planned(w, t).containers ==>
                 id in daemon.gone.images)
    ensures inventory.engine.daemon.quiet ==>
              |inventory.engine.log| <= |old(inventory.engine.log)| + ImageCost(w, inventory.policy)
  {
    var choice, basis :- JudgeImage(inventory, now, profile, tagged, id, w, t);
    if choice == None {
      return Success(());
    }
    report.Decide(Images, id, choice.value, false);
    if !choice.value.eligible {
      return Success(());
    }
    r := RemovePlanned(inventory, report, Images, id, basis, w, t);
  }

  method TryImage(inventory: Inventory, report: Report, now: int, profile: Profile, tagged: bool,
                  id: string, initial: Image, ghost w: World, ghost t: Terms)
    returns (r: Result<(), Stop>)
    requires inventory.engine.Ready() && OnCourse(inventory, w, t) && t.now == now && t.profile == profile
    requires inventory.engine.daemon.quiet ==>
               id in inventory.engine.daemon.world.images && initial == inventory.engine.daemon.world.images[id] &&
               inventory.protectedImages == t.protected
    modifies report, inventory`containers, inventory`protectedImages, inventory.engine`log, inventory.engine`mutationStarted, inventory.engine`calmSince
    modifies inventory.engine.daemon`world, inventory.engine.daemon`cache, inventory.engine.daemon`gone
    ensures inventory.engine.Sound() && Orderly(inventory.engine.log, inventory.engine.rule, r) && OnCourse(inventory, w, t)
    ensures inventory.engine.daemon.quiet ==> inventory.protectedImages == t.protected
    ensures old(inventory.engine.log) <= inventory.engine.log
    ensures old(report.refused) <= report.refused
    ensures r.Success? && old(report.removed == inventory.engine.daemon.gone) ==>
              report.removed == inventory.engine.daemon.gone
    ensures old(report.removed.Within(inventory.engine.daemon.gone)) ==>
              report.removed.Within(inventory.engine.daemon.gone)
    ensures var daemon := inventory.engine.daemon;
            daemon.gone == old(daemon.gone) || daemon.gone == old(daemon.gone).Plus(Images, id)
    ensures IsTagged(initial) != tagged ==> inventory.engine.daemon.gone == old(inventory.engine.daemon.gone)
    ensures var daemon := inventory.engine.daemon;
            daemon.quiet && r.Success? && inventory.steady && report.refused == {} && id in Planned(w, t).images ==>
              (IsTagged(w.images[id]) == tagged && daemon.gone.containers == Planned(w, t).containers ==>
                 id in daemon.gone.images)
    ensures inventory.engine.daemon.quiet ==>
              |inventory.engine.log| <= |old(inventory.engine.log)| +
                if ImageSurvives(id, initial, t, tagged)
                then ImageCost(w, inventory.policy) else 0
  {
    var engine := inventory.engine;
    if engine.daemon.quiet {
      ImageStep(w, t, engine.daemon.gone, id);
    }
    var _ :- engine.Remaining();
    if IsTagged(initial) != tagged {
      return Success(());
    }
    var choice :- FirstLook(inventory, now, profile, id, initial, ImageRefs(engine.daemon.world.containers));
    if !choice.eligible {
      report.Decide(Images, id, choice, false);
      return Success(());
    }
    r := RecheckImage(inventory, report, now, profile, tagged, id, w, t);
  }

  /** How each stage starts: a live lease, a daemon that still fits, a fresh inventory. */
  method OpenStage(inventory: Inventory) returns (r: Result<(), Stop>)
    requires inventory.engine.Ready() && inventory.Justified()
    modifies inventory, inventory.engine`log, inventory.engine`verified
    modifies inventory.engine.daemon`world, inventory.engine.daemon`cache
    ensures inventory.engine.Ready() && inventory.Justified() && old(inventory.engine.log) <= inventory.engine.log
    ensures inventory.engine.daemon.quiet ==> inventory.engine.daemon.world == old(inventory.engine.daemon.world)
    ensures inventory.engine.daemon.quiet ==>
              |inventory.engine.log| <= |old(inventory.engine.log)| + OpeningCost(inventory.engine.daemon.world, inventory.policy)
    ensures r.Success? ==> inventory.Loaded() && NamesKnown(inventory.engine.log, inventory.networks)
  {
    var _ :- inventory.engine.Guard();
    var _ :- inventory.engine.Preflight();
    var _ :- inventory.Load();
    return Success(());
  }

  /** The filter on the snapshot let all these objects through. */
  ghost predicate ContainersSurvive(tried: set<string>, containers: map<string, Container>, policy: Settings, now: int) {
    forall c :: c in tried ==> c in containers && ContainerDecision(c, containers[c], policy, now).eligible
  }

  ghost predicate NetworksSurvive(tried: set<string>, networks: map<string, Network>, policy: Settings, now: int) {
    forall n :: n in tried ==> n in networks && NetworkDecision(n, networks[n], policy, now, {}).eligible
  }

  ghost predicate ImagesSurvive(tried: set<string>, images: map<string, Image>, t: Terms, tagged: bool) {
    forall i :: i in tried ==> i in images && ImageSurvives(i, images[i], t, tagged)
  }

  /** The image is of the stage's kind, and neither the decision without references nor the profile excludes it. */
  predicate ImageSurvives(id: string, item: Image, t: Terms, tagged: bool) {
    IsTagged(item) == tagged && Eligible(ImageDecision(id, item, t.policy, t.now, {}, t.protected)) &&
    ImageProfile(item, t.policy, t.profile, t.pressured) == None
  }

  ghost predicate SameButNetworks(before: Gone, after: Gone) {
    after.containers == before.containers && after.images == before.images && before.networks <= after.networks
  }

  ghost predicate SameButImages(before: Gone, after: Gone) {
    after.containers == before.containers && after.networks == before.networks && before.images <= after.images
  }

  /** So many times the cost. */
  function Times(n: nat, cost: nat): (sum: nat) {
    if n == 0 then 0 else cost + Times(n - 1, cost)
  }

  /** The log grew by at most so much for each object tried. */
  ghost predicate Spent(length: nat, start: nat, tried: set<string>, cost: nat) {
    length <= start + Times(|tried|, cost)
  }

  /** Books one more object. */
  lemma Spend(length: nat, longer: nat, start: nat, tried: set<string>, id: string, cost: nat, survives: bool)
    returns (all: set<string>)
    requires Spent(length, start, tried, cost) && longer <= length + (if survives then cost else 0) && id !in tried
    ensures all == if survives then tried + {id} else tried
    ensures Spent(longer, start, all, cost)
  {
    assert |tried + {id}| == |tried| + 1;
    all := if survives then tried + {id} else tried;
  }

  // What the filters can let through, said about the initial daemon

  function SurvivingNetworks(w: World, t: Terms): (ids: set<string>) {
    set n | n in w.networks && NetworkDecision(n, Later(w, t).networks[n], t.policy, t.now, {}).eligible
  }

  function SurvivingImages(w: World, t: Terms, tagged: bool): (ids: set<string>) {
    set i | i in w.images && ImageSurvives(i, w.images[i], t, tagged)
  }

  /** The requests of a stage: its opening, and so much for each survivor of the filter. */
  function StageCost(w: World, policy: Settings, survivors: set<string>, cost: nat): (n: nat) {
    OpeningCost(w, policy) + Times(|survivors|, cost)
  }

  lemma ContainerSurvivors(tried: set<string>, w: World, t: Terms, gone: Gone)
    requires ContainersSurvive(tried, After(w, gone).containers, t.policy, t.now)
    ensures tried <= GoingContainers(w, t)
  {
  }

  lemma NetworkSurvivors(tried: set<string>, w: World, t: Terms, gone: Gone)
    requires Underway(w, t, gone) && NetworksSurvive(tried, After(w, gone).networks, t.policy, t.now)
    ensures tried <= SurvivingNetworks(w, t)
  {
    var going := GoingContainers(w, t);
    forall n | n in tried
      ensures n in SurvivingNetworks(w, t)
    {
      DetachedTwice(w.networks[n], gone.containers, going);
      assert gone.containers + going == going;
      NetworkEligibilityShrinks(n, After(w, gone).networks[n], t.policy, t.now, {}, {}, going);
    }
  }

  lemma ImageSurvivors(tried: set<string>, w: World, t: Terms, gone: Gone, tagged: bool)
    requires ImagesSurvive(tried, After(w, gone).images, t, tagged)
    ensures tried <= SurvivingImages(w, t, tagged)
  {
    forall i | i in tried
      ensures i in SurvivingImages(w, t, tagged)
    {
      assert After(w, gone).images[i] == w.images[i];
    }
  }

  lemma {:induction false} TimesGrows(n: nat, more: nat, cost: nat)
    requires n <= more
    ensures Times(n, cost) <= Times(more, cost)
  {
    if n < more {
      TimesGrows(n, more - 1, cost);
    }
  }

  lemma SpentOnSurvivors(length: nat, start: nat, tried: set<string>, survivors: set<string>, cost: nat)
    requires Spent(length, start, tried, cost) && tried <= survivors
    ensures length <= start + Times(|survivors|, cost)
  {
    SmallerIsCheaper(tried, survivors);
    TimesGrows(|tried|, |survivors|, cost);
  }

  method TryContainers(inventory: Inventory, report: Report, now: int, snapshot: map<string, Container>,
                       ghost w: World, ghost t: Terms)
    returns (r: Result<(), Stop>, ghost tried: set<string>)
    requires inventory.engine.Ready() && OnCourse(inventory, w, t) && t.now == now
    requires inventory.engine.daemon.quiet ==> inventory.engine.daemon.world.containers == snapshot
    requires report.removed == inventory.engine.daemon.gone
    modifies report, inventory.engine`log, inventory.engine`mutationStarted, inventory.engine`calmSince
    modifies inventory.engine.daemon`world, inventory.engine.daemon`cache, inventory.engine.daemon`gone
    ensures inventory.engine.Sound() && Orderly(inventory.engine.log, inventory.engine.rule, r) && OnCourse(inventory, w, t)
    ensures old(inventory.engine.log) <= inventory.engine.log
    ensures old(report.refused) <= report.refused
    ensures r.Success? ==> report.removed == inventory.engine.daemon.gone
    ensures report.removed.Within(inventory.engine.daemon.gone)
    ensures old(inventory.engine.daemon.gone.containers) <= inventory.engine.daemon.gone.containers
    ensures inventory.engine.daemon.quiet && r.Success? && report.refused == {} ==>
              forall c :: c in snapshot && c in Planned(w, t).containers ==> c in inventory.engine.daemon.gone.containers
    ensures Spent(|inventory.engine.log|, |old(inventory.engine.log)|, tried, 4)
    ensures ContainersSurvive(tried, snapshot, inventory.policy, now)
  {
    var engine := inventory.engine;
    var daemon := engine.daemon;
    var rest := snapshot.Keys;
    tried := {};
    while rest != {}
      invariant engine.Ready() && OnCourse(inventory, w, t) && rest <= snapshot.Keys
      invariant old(engine.log) <= engine.log && old(report.refused) <= report.refused && report.removed == daemon.gone
      invariant old(daemon.gone.containers) <= daemon.gone.containers
      invariant daemon.quiet ==>
                  forall c :: c in rest ==> c in daemon.world.containers && snapshot[c] == daemon.world.containers[c]
      invariant daemon.quiet && report.refused == {} ==>
                  forall c :: c in snapshot && c !in rest && c in Planned(w, t).containers ==> c in daemon.gone.containers
      invariant tried !! rest && ContainersSurvive(tried, snapshot, inventory.policy, now)
      invariant Spent(|engine.log|, |old(engine.log)|, tried, 4)
    {
      var c :| c in rest;
      rest := rest - {c};
      ghost var length := |engine.log|;
      r := TryContainer(inventory, report, now, c, snapshot[c], w, t);
      tried := Spend(length, |engine.log|, |old(engine.log)|, tried, c, 4,
                     ContainerDecision(c, snapshot[c], inventory.policy, now).eligible);
      if r.Failure? {
        return;
      }
    }
    r := Success(());
  }

  method CleanContainers(inventory: Inventory, report: Report, now: int, ghost w: World, ghost t: Terms)
    returns (r: Result<(), Stop>)
    requires inventory.engine.Ready() && OnCourse(inventory, w, t) && t.now == now
    requires report.removed == inventory.engine.daemon.gone
    modifies report, inventory, inventory.engine, inventory.engine.daemon
    ensures inventory.engine.Sound() && Orderly(inventory.engine.log, inventory.engine.rule, r) && OnCourse(inventory, w, t)
    ensures old(inventory.engine.log) <= inventory.engine.log
    ensures old(report.refused) <= report.refused
    ensures r.Success? ==> report.removed == inventory.engine.daemon.gone
    ensures report.removed.Within(inventory.engine.daemon.gone)
    ensures inventory.engine.daemon.quiet && r.Success? && report.refused == {} ==>
              inventory.engine.daemon.gone.containers == Planned(w, t).containers
    ensures inventory.engine.daemon.quiet ==>
              |inventory.engine.log| <= |old(inventory.engine.log)| + StageCost(w, inventory.policy, GoingContainers(w, t), 4)
  {
    if inventory.engine.daemon.quiet {
      AfterIsCheaper(w, inventory.engine.daemon.gone, inventory.policy);
    }
    var _ :- OpenStage(inventory);
    ghost var start, gone, tried := |inventory.engine.log|, inventory.engine.daemon.gone, {};
    r, tried := TryContainers(inventory, report, now, inventory.containers, w, t);
    if inventory.engine.daemon.quiet {
      ContainerSurvivors(tried, w, t, gone);
      SpentOnSurvivors(|inventory.engine.log|, start, tried, GoingContainers(w, t), 4);
    }
  }

  /** One network of the snapshot; the requests made for it are booked on it if the filter lets it through. */
  method TryNextNetwork(inventory: Inventory, report: Report, now: int, snapshot: map<string, Network>, n: string,
                        ghost tried: set<string>, ghost start: nat, ghost w: World, ghost t: Terms)
    returns (r: Result<(), Stop>, ghost all: set<string>)
    requires inventory.engine.Ready() && OnCourse(inventory, w, t) && t.now == now
    requires inventory.networks == snapshot && n in snapshot && n !in tried
    requires inventory.engine.daemon.quiet ==>
               n in inventory.engine.daemon.world.networks && snapshot[n] == inventory.engine.daemon.world.networks[n]
    requires report.removed == inventory.engine.daemon.gone && NamesKnown(inventory.engine.log, snapshot)
    requires NetworksSurvive(tried, snapshot, inventory.policy, now)
    requires inventory.engine.daemon.quiet ==> Spent(|inventory.engine.log|, start, tried, NetworkCost(w))
    modifies report, inventory`containers, inventory.engine`log, inventory.engine`mutationStarted, inventory.engine`calmSince
    modifies inventory.engine.daemon`world, inventory.engine.daemon`cache, inventory.engine.daemon`gone
    ensures inventory.engine.Sound() && Orderly(inventory.engine.log, inventory.engine.rule, r) && OnCourse(inventory, w, t)
    ensures old(inventory.engine.log) <= inventory.engine.log && old(report.refused) <= report.refused
    ensures r.Success? ==> report.removed == inventory.engine.daemon.gone
    ensures report.removed.Within(inventory.engine.daemon.gone)
    ensures var daemon := inventory.engine.daemon;
            daemon.gone == old(daemon.gone) || daemon.gone == old(daemon.gone).Plus(Networks, n)
    ensures var daemon := inventory.engine.daemon;
            daemon.quiet && r.Success? && report.refused == {} &&
            daemon.gone.containers == Planned(w, t).containers && n in Planned(w, t).networks ==>
              n in daemon.gone.networks
    ensures tried <= all <= tried + {n} && NetworksSurvive(all, snapshot, inventory.policy, now)
    ensures inventory.engine.daemon.quiet ==> Spent(|inventory.engine.log|, start, all, NetworkCost(w))
  {
    all := tried;
    ghost var length := |inventory.engine.log|;
    r := TryNetwork(inventory, report, now, n, snapshot[n], w, t);
    if inventory.engine.daemon.quiet {
      all := Spend(length, |inventory.engine.log|, start, tried, n, NetworkCost(w),
                   NetworkDecision(n, snapshot[n], inventory.policy, now, {}).eligible);
    }
  }

  method TryNetworks(inventory: Inventory, report: Report, now: int, snapshot: map<string, Network>,
                     ghost w: World, ghost t: Terms)
    returns (r: Result<(), Stop>, ghost tried: set<string>)
    requires inventory.engine.Ready() && OnCourse(inventory, w, t) && t.now == now && inventory.networks == snapshot
    requires inventory.engine.daemon.quiet ==> inventory.engine.daemon.world.networks == snapshot
    requires report.removed == inventory.engine.daemon.gone && NamesKnown(inventory.engine.log, snapshot)
    modifies report, inventory`containers, inventory.engine`log, inventory.engine`mutationStarted, inventory.engine`calmSince
    modifies inventory.engine.daemon`world, inventory.engine.daemon`cache, inventory.engine.daemon`gone
    ensures inventory.engine.Sound() && Orderly(inventory.engine.log, inventory.engine.rule, r) && OnCourse(inventory, w, t)
    ensures old(inventory.engine.log) <= inventory.engine.log
    ensures old(report.refused) <= report.refused
    ensures r.Success? ==> report.removed == inventory.engine.daemon.gone
    ensures report.removed.Within(inventory.engine.daemon.gone)
    ensures SameButNetworks(old(inventory.engine.daemon.gone), inventory.engine.daemon.gone)
    ensures var gone := inventory.engine.daemon.gone;
            inventory.engine.daemon.quiet && r.Success? && report.refused == {} ==>
              (gone.containers == Planned(w, t).containers ==>
                 forall n :: n in snapshot && n in Planned(w, t).networks ==> n in gone.networks)
    ensures inventory.engine.daemon.quiet ==>
              Spent(|inventory.engine.log|, |old(inventory.engine.log)|, tried, NetworkCost(w))
    ensures NetworksSurvive(tried, snapshot, inventory.policy, now)
  {
    var engine := inventory.engine;
    var daemon := engine.daemon;
    var rest := snapshot.Keys;
    tried := {};
    while rest != {}
      invariant engine.Ready() && OnCourse(inventory, w, t) && rest <= snapshot.Keys && inventory.networks == snapshot
      invariant old(engine.log) <= engine.log && old(report.refused) <= report.refused && report.removed == daemon.gone
      invariant SameButNetworks(old(daemon.gone), daemon.gone)
      invariant daemon.quiet ==>
                  forall n :: n in rest ==> n in daemon.world.networks && snapshot[n] == daemon.world.networks[n]
      invariant daemon.quiet && report.refused == {} ==>
                  (daemon.gone.containers == Planned(w, t).containers ==>
                     forall n :: n in snapshot && n !in rest && n in Planned(w, t).networks ==> n in daemon.gone.networks)
      invariant tried !! rest && NetworksSurvive(tried, snapshot, inventory.policy, now)
      invariant daemon.quiet ==> Spent(|engine.log|, |old(engine.log)|, tried, NetworkCost(w))
    {
      var n :| n in rest;
      rest := rest - {n};
      NamesKnownLater(old(engine.log), engine.log, snapshot);
      r, tried := TryNextNetwork(inventory, report, now, snapshot, n, tried, |old(engine.log)|, w, t);
      if r.Failure? {
        return;
      }
    }
    r := Success(());
  }

  method CleanNetworks(inventory: Inventory, report: Report, now: int, ghost w: World, ghost t: Terms)
    returns (r: Result<(), Stop>)
    requires inventory.engine.Ready() && OnCourse(inventory, w, t) && t.now == now
    requires report.removed == inventory.engine.daemon.gone
    modifies report, inventory, inventory.engine, inventory.engine.daemon
    ensures inventory.engine.Sound() && Orderly(inventory.engine.log, inventory.engine.rule, r) && OnCourse(inventory, w, t)
    ensures old(inventory.engine.log) <= inventory.engine.log
    ensures old(report.refused) <= report.refused
    ensures r.Success? ==> report.removed == inventory.engine.daemon.gone
    ensures report.removed.Within(inventory.engine.daemon.gone)
    ensures SameButNetworks(old(inventory.engine.daemon.gone), inventory.engine.daemon.gone)
    ensures var gone := inventory.engine.daemon.gone;
            inventory.engine.daemon.quiet && r.Success? && report.refused == {} ==>
              (gone.containers == Planned(w, t).containers ==> gone.networks == Planned(w, t).networks)
    ensures inventory.engine.daemon.quiet ==>
              |inventory.engine.log| <=
              |old(inventory.engine.log)| + StageCost(w, inventory.policy, SurvivingNetworks(w, t), NetworkCost(w))
  {
    if inventory.engine.daemon.quiet {
      AfterIsCheaper(w, inventory.engine.daemon.gone, inventory.policy);
    }
    var _ :- OpenStage(inventory);
    ghost var start, gone, tried := |inventory.engine.log|, inventory.engine.daemon.gone, {};
    r, tried := TryNetworks(inventory, report, now, inventory.networks, w, t);
    if inventory.engine.daemon.quiet {
      NetworkSurvivors(tried, w, t, gone);
      SpentOnSurvivors(|inventory.engine.log|, start, tried, SurvivingNetworks(w, t), NetworkCost(w));
    }
  }

  /** One image of the snapshot; the requests made for it are booked on it if the filter lets it through. */
  method TryNextImage(inventory: Inventory, report: Report, now: int, profile: Profile, tagged: bool,
                      snapshot: map<string, Image>, i: string, ghost tried: set<string>, ghost start: nat,
                      ghost w: World, ghost t: Terms)
    returns (r: Result<(), Stop>, ghost all: set<string>)
    requires inventory.engine.Ready() && OnCourse(inventory, w, t) && t.now == now && t.profile == profile
    requires i in snapshot && i !in tried && report.removed == inventory.engine.daemon.gone
    requires inventory.engine.daemon.quiet ==>
               i in inventory.engine.daemon.world.images && snapshot[i] == inventory.engine.daemon.world.images[i] &&
               inventory.protectedImages == t.protected && ImagesSurvive(tried, snapshot, t, tagged) &&
               Spent(|inventory.engine.log|, start, tried, ImageCost(w, inventory.policy))
    modifies report, inventory`containers, inventory`protectedImages, inventory.engine`log, inventory.engine`mutationStarted, inventory.engine`calmSince
    modifies inventory.engine.daemon`world, inventory.engine.daemon`cache, inventory.engine.daemon`gone
    ensures inventory.engine.Sound() && Orderly(inventory.engine.log, inventory.engine.rule, r) && OnCourse(inventory, w, t)
    ensures old(inventory.engine.log) <= inventory.engine.log && old(report.refused) <= report.refused
    ensures r.Success? ==> report.removed == inventory.engine.daemon.gone
    ensures report.removed.Within(inventory.engine.daemon.gone)
    ensures var daemon := inventory.engine.daemon;
            daemon.gone == old(daemon.gone) || daemon.gone == old(daemon.gone).Plus(Images, i)
    ensures var daemon := inventory.engine.daemon;
            daemon.quiet && r.Success? && inventory.steady && report.refused == {} && i in Planned(w, t).images ==>
              (IsTagged(w.images[i]) == tagged && daemon.gone.containers == Planned(w, t).containers ==>
                 i in daemon.gone.images)
    ensures tried <= all <= tried + {i}
    ensures inventory.engine.daemon.quiet ==>
              inventory.protectedImages == t.protected && ImagesSurvive(all, snapshot, t, tagged) &&
              Spent(|inventory.engine.log|, start, all, ImageCost(w, inventory.policy))
  {
    all := tried;
    ghost var length := |inventory.engine.log|;
    r := TryImage(inventory, report, now, profile, tagged, i, snapshot[i], w, t);
    if inventory.engine.daemon.quiet {
      all := Spend(length, |inventory.engine.log|, start, tried, i, ImageCost(w, inventory.policy),
                   ImageSurvives(i, snapshot[i], t, tagged));
    }
  }

  /** The objects of one image stage, in any order. */
  method TryImages(inventory: Inventory, report: Report, now: int, profile: Profile, tagged: bool, snapshot: map<string, Image>,
                   ghost w: World, ghost t: Terms)
    returns (r: Result<(), Stop>, ghost tried: set<string>)
    requires inventory.engine.Ready() && OnCourse(inventory, w, t) && t.now == now && t.profile == profile
    requires inventory.engine.daemon.quiet ==>
               inventory.engine.daemon.world.images == snapshot && inventory.protectedImages == t.protected
    requires report.removed == inventory.engine.daemon.gone
    modifies report, inventory`containers, inventory`protectedImages, inventory.engine`log, inventory.engine`mutationStarted, inventory.engine`calmSince
    modifies inventory.engine.daemon`world, inventory.engine.daemon`cache, inventory.engine.daemon`gone
    ensures inventory.engine.Sound() && Orderly(inventory.engine.log, inventory.engine.rule, r) && OnCourse(inventory, w, t)
    ensures old(inventory.engine.log) <= inventory.engine.log
    ensures old(report.refused) <= report.refused
    ensures r.Success? ==> report.removed == inventory.engine.daemon.gone
    ensures report.removed.Within(inventory.engine.daemon.gone)
    ensures SameButImages(old(inventory.engine.daemon.gone), inventory.engine.daemon.gone)
    ensures var gone := inventory.engine.daemon.gone;
            inventory.engine.daemon.quiet && inventory.steady && r.Success? && report.refused == {} ==>
              (gone.containers == Planned(w, t).containers ==>
                 forall i :: i in snapshot && i in Planned(w, t).images && IsTagged(w.images[i]) == tagged ==> i in gone.images)
    ensures inventory.engine.daemon.quiet ==>
              Spent(|inventory.engine.log|, |old(inventory.engine.log)|, tried,
                    ImageCost(w, inventory.policy)) &&
              ImagesSurvive(tried, snapshot, t, tagged)
  {
    var engine := inventory.engine;
    var daemon := engine.daemon;
    var rest := snapshot.Keys;
    tried := {};
    while rest != {}
      invariant engine.Ready() && OnCourse(inventory, w, t) && rest <= snapshot.Keys
      invariant old(engine.log) <= engine.log && old(report.refused) <= report.refused && report.removed == daemon.gone
      invariant SameButImages(old(daemon.gone), daemon.gone)
      invariant daemon.quiet ==>
                  inventory.protectedImages == t.protected &&
                  forall i :: i in rest ==> i in daemon.world.images && daemon.world.images[i] == snapshot[i]
      invariant daemon.quiet && inventory.steady && report.refused == {} ==>
                  (daemon.gone.containers == Planned(w, t).containers ==>
                     forall i :: i in snapshot && i !in rest && i in Planned(w, t).images && IsTagged(w.images[i]) == tagged ==>
                                   i in daemon.gone.images)
      invariant tried !! rest
      invariant daemon.quiet ==> Spent(|engine.log|, |old(engine.log)|, tried, ImageCost(w, inventory.policy))
      invariant daemon.quiet ==> ImagesSurvive(tried, snapshot, t, tagged)
    {
      var i :| i in rest;
      rest := rest - {i};
      r, tried := TryNextImage(inventory, report, now, profile, tagged, snapshot, i, tried, |old(engine.log)|, w, t);
      if r.Failure? {
        return;
      }
    }
    r := Success(());
  }

  /** One of the two image stages. */
  method CleanImages(inventory: Inventory, report: Report, now: int, profile: Profile, tagged: bool,
                     ghost w: World, ghost t: Terms)
    returns (r: Result<(), Stop>)
    requires inventory.engine.Ready() && OnCourse(inventory, w, t) && t.now == now && t.profile == profile
    requires report.removed == inventory.engine.daemon.gone
    modifies report, inventory, inventory.engine, inventory.engine.daemon
    ensures inventory.engine.Sound() && Orderly(inventory.engine.log, inventory.engine.rule, r) && OnCourse(inventory, w, t)
    ensures old(inventory.engine.log) <= inventory.engine.log
    ensures old(report.refused) <= report.refused
    ensures r.Success? ==> report.removed == inventory.engine.daemon.gone
    ensures report.removed.Within(inventory.engine.daemon.gone)
    ensures SameButImages(old(inventory.engine.daemon.gone), inventory.engine.daemon.gone)
    ensures var gone := inventory.engine.daemon.gone;
            inventory.engine.daemon.quiet && inventory.steady && r.Success? && report.refused == {} ==>
              (gone.containers == Planned(w, t).containers ==>
                 forall i :: i in Planned(w, t).images && IsTagged(w.images[i]) == tagged ==> i in gone.images)
    ensures inventory.engine.daemon.quiet ==>
              |inventory.engine.log| <=
              |old(inventory.engine.log)| +
              StageCost(w, inventory.policy, SurvivingImages(w, t, tagged), ImageCost(w, inventory.policy))
  {
    if inventory.engine.daemon.quiet {
      AfterIsCheaper(w, inventory.engine.daemon.gone, inventory.policy);
    }
    var _ :- OpenStage(inventory);
    if inventory.engine.daemon.quiet {
      ProtectionStays(w, t, inventory.engine.daemon.gone);
    }
    ghost var start, gone, tried := |inventory.engine.log|, inventory.engine.daemon.gone, {};
    r, tried := TryImages(inventory, report, now, profile, tagged, inventory.images, w, t);
    if inventory.engine.daemon.quiet {
      ImageSurvivors(tried, w, t, gone, tagged);
      SpentOnSurvivors(|inventory.engine.log|, start, tried, SurvivingImages(w, t, tagged), ImageCost(w, inventory.policy));
    }
  }

  method CleanCache(cache: BuildCache, now: int) returns (r: Result<(), Stop>)
    requires cache.engine.Ready() && Faithful(cache.accepted, cache.engine.log) && cache.submitted == []
    requires cache.Governed(now)
    modifies cache, cache.engine, cache.engine.daemon`world, cache.engine.daemon`cache
    ensures cache.engine.Sound() && Orderly(cache.engine.log, cache.engine.rule, r) && old(cache.engine.log) <= cache.engine.log
    ensures Faithful(cache.accepted, cache.engine.log) && |cache.submitted| <= 2
    ensures AllLawful(cache.submitted, cache.policy, now, cache.engine.log, cache.accepted)
    ensures cache.Pruned(now) && |cache.engine.log| <= |old(cache.engine.log)| + 10
  {
    var guard := cache.engine.Guard();
    FaithfulLater(cache.accepted, old(cache.engine.log), cache.engine.log);
    if guard.Failure? {
      return guard;
    }
    var fits := cache.engine.Preflight();
    FaithfulLater(cache.accepted, old(cache.engine.log), cache.engine.log);
    if fits.Failure? {
      return fits;
    }
    r := cache.Prune(now);
  }

  /** The requests of a whole run: linear in the inventory, plus survivors of the filters times containers and
      protected references. Objects that the filters exclude cost nothing beyond the inventory. */
  function ApplyCost(w: World, t: Terms): (n: nat) {
    StageCost(w, t.policy, GoingContainers(w, t), 4) +
    StageCost(w, t.policy, SurvivingNetworks(w, t), NetworkCost(w)) +
    StageCost(w, t.policy, SurvivingImages(w, t, false), ImageCost(w, t.policy)) + 10 +
    StageCost(w, t.policy, SurvivingImages(w, t, true), ImageCost(w, t.policy))
  }

  /** The containers and then the networks that only they used. */
  method CleanContainersAndNetworks(inventory: Inventory, report: Report, now: int, ghost w: World, ghost t: Terms)
    returns (r: Result<(), Stop>)
    requires inventory.engine.Ready() && OnCourse(inventory, w, t) && t.now == now
    requires report.removed == inventory.engine.daemon.gone
    modifies report, inventory, inventory.engine, inventory.engine.daemon
    ensures inventory.engine.Sound() && Orderly(inventory.engine.log, inventory.engine.rule, r) && OnCourse(inventory, w, t)
    ensures old(inventory.engine.log) <= inventory.engine.log
    ensures r.Success? ==> report.removed == inventory.engine.daemon.gone
    ensures report.removed.Within(inventory.engine.daemon.gone)
    ensures var gone := inventory.engine.daemon.gone;
            inventory.engine.daemon.quiet && r.Success? && report.refused == {} ==>
              gone.containers == Planned(w, t).containers && gone.networks == Planned(w, t).networks
    ensures inventory.engine.daemon.quiet ==>
              |inventory.engine.log| <=
              |old(inventory.engine.log)| + StageCost(w, inventory.policy, GoingContainers(w, t), 4) +
              StageCost(w, inventory.policy, SurvivingNetworks(w, t), NetworkCost(w))
  {
    var _ :- CleanContainers(inventory, report, now, w, t);
    r := CleanNetworks(inventory, report, now, w, t);
  }

  /** All stages in order. What was deleted is always part of the plan; on a daemon that others leave alone, with
      a lasting pressure sample and no removal refused, a run that gets to its end deleted exactly the plan. */
  method Apply(inventory: Inventory, cache: BuildCache, report: Report, now: int, profile: Profile,
               ghost w: World, ghost t: Terms)
    returns (r: Result<(), Stop>)
    requires inventory.engine.Ready() && OnCourse(inventory, w, t) && t.now == now && t.profile == profile
    requires cache.engine == inventory.engine && cache.submitted == [] && Faithful(cache.accepted, cache.engine.log)
    requires cache.Governed(now)
    requires report.removed == inventory.engine.daemon.gone
    modifies report, inventory, cache, inventory.engine, inventory.engine.daemon
    ensures inventory.engine.Sound() && Orderly(inventory.engine.log, inventory.engine.rule, r) && OnCourse(inventory, w, t)
    ensures old(inventory.engine.log) <= inventory.engine.log
    ensures r.Success? ==> report.removed == inventory.engine.daemon.gone && Faithful(cache.accepted, cache.engine.log)
    ensures report.removed.Within(inventory.engine.daemon.gone)
    ensures inventory.engine.daemon.quiet ==> inventory.engine.daemon.gone.Within(Planned(w, t))
    ensures inventory.engine.daemon.quiet ==>
              |inventory.engine.log| <= |old(inventory.engine.log)| + ApplyCost(w, t)
    ensures inventory.engine.daemon.quiet && inventory.steady && r.Success? && report.refused == {} ==>
              inventory.engine.daemon.gone == Planned(w, t)
  {
    var engine := inventory.engine;
    var daemon := engine.daemon;
    var _ :- CleanContainersAndNetworks(inventory, report, now, w, t);
    var _ :- CleanImages(inventory, report, now, profile, false, w, t);
    FaithfulLater(cache.accepted, old(engine.log), engine.log);
    var _ :- CleanCache(cache, now);
    ghost var log := engine.log;
    r := CleanImages(inventory, report, now, profile, true, w, t);
    FaithfulLater(cache.accepted, log, engine.log);
  }

  // ---------------------------------------------------------------------------------------------------
  // Plan

  /** The inventory as a value. */
  function Snapshot(inventory: Inventory): (w: World)
    reads inventory
  {
    World(inventory.containers, inventory.networks, inventory.images, map[])
  }

  function TermsOf(inventory: Inventory, now: int, profile: Profile): (t: Terms)
    reads inventory`protectedImages
  {
    Terms(inventory.policy, now, profile, inventory.sample, inventory.protectedImages)
  }

  /** The plan does not depend on how references resolve, once the protected images are known. */
  lemma NamesDoNotMatter(w: World, t: Terms)
    ensures Planned(w.(names := map[]), t) == Planned(w, t)
  {
    var v := w.(names := map[]);
    assert GoingContainers(v, t) == GoingContainers(w, t);
    assert Later(v, t).containers == Later(w, t).containers && Later(v, t).networks == Later(w, t).networks;
    assert Later(v, t).images == Later(w, t).images;
  }

  /** Decides about every container of the inventory and collects the eligible ones. */
  method PlanContainers(inventory: Inventory, now: int, report: Report) returns (r: Result<set<string>, Stop>)
    requires report.candidates.containers == {}
    modifies report`candidates, report`dependents
    ensures report.candidates.networks == old(report.candidates.networks)
    ensures report.candidates.images == old(report.candidates.images) && report.dependents == old(report.dependents)
    ensures r.Success? ==>
              r.value == report.candidates.containers ==
              set c | c in inventory.containers && ContainerDecision(c, inventory.containers[c], inventory.policy, now).eligible
  {
    var removable: set<string> := {};
    var rest := inventory.containers.Keys;
    while rest != {}
      invariant rest <= inventory.containers.Keys
      invariant report.candidates.networks == old(report.candidates.networks)
      invariant report.candidates.images == old(report.candidates.images) && report.dependents == old(report.dependents)
      invariant removable == report.candidates.containers ==
                set c | c in inventory.containers && c !in rest &&
                        ContainerDecision(c, inventory.containers[c], inventory.policy, now).eligible
    {
      var c :| c in rest;
      rest := rest - {c};
      var _ :- inventory.engine.Remaining();
      var choice := ContainerDecision(c, inventory.containers[c], inventory.policy, now);
      report.Decide(Containers, c, choice, false);
      if choice.eligible {
        removable := removable + {c};
      }
    }
    return Success(removable);
  }

  /** Decides about every network twice: as things are, and once the removable containers are gone. */
  method PlanNetworks(inventory: Inventory, now: int, report: Report, removable: set<string>,
                      refs: set<string>, laterRefs: set<string>)
    returns (r: Result<(), Stop>)
    requires report.candidates.networks == report.dependents.networks == {}
    modifies report`candidates, report`dependents
    ensures report.candidates.containers == old(report.candidates.containers)
    ensures report.candidates.images == old(report.candidates.images)
    ensures report.dependents.containers == old(report.dependents.containers)
    ensures report.dependents.images == old(report.dependents.images)
    ensures r.Success? ==>
              report.candidates.networks ==
              set n | n in inventory.networks && NetworkDecision(n, inventory.networks[n], inventory.policy, now, refs).eligible
    ensures r.Success? ==>
              report.dependents.networks ==
              set n | n in inventory.networks &&
                      !NetworkDecision(n, inventory.networks[n], inventory.policy, now, refs).eligible &&
                      NetworkDecision(n, Detached(inventory.networks[n], removable), inventory.policy, now, laterRefs).eligible
  {
    var networks := inventory.networks;
    var rest := networks.Keys;
    while rest != {}
      invariant rest <= networks.Keys
      invariant report.candidates.containers == old(report.candidates.containers)
      invariant report.candidates.images == old(report.candidates.images)
      invariant report.dependents.containers == old(report.dependents.containers)
      invariant report.dependents.images == old(report.dependents.images)
      invariant report.candidates.networks ==
                set n | n in networks && n !in rest && NetworkDecision(n, networks[n], inventory.policy, now, refs).eligible
      invariant report.dependents.networks ==
                set n | n in networks && n !in rest &&
                        !NetworkDecision(n, networks[n], inventory.policy, now, refs).eligible &&
                        NetworkDecision(n, Detached(networks[n], removable), inventory.policy, now, laterRefs).eligible
    {
      var n :| n in rest;
      rest := rest - {n};
      var _ :- inventory.engine.Remaining();
      var choice := NetworkDecision(n, networks[n], inventory.policy, now, refs);
      var later := NetworkDecision(n, Detached(networks[n], removable), inventory.policy, now, laterRefs);
      report.Decide(Networks, n, choice, !choice.eligible && later.eligible);
    }
    return Success(());
  }

  /** The decision about one image under a profile; an unreadable reference ends the run. */
  function ProfiledDecision(id: string, item: Image, policy: Settings, now: int, profile: Profile, pressured: Option<bool>,
                            refs: set<string>, protected: set<string>): (d: Result<Decision, Stop>) {
    var choice := ImageDecision(id, item, policy, now, refs, protected);
    if choice.Failure? then Failure(Failed(2))
    else if choice.value.eligible then Success(ImageProfile(item, policy, profile, pressured).GetOr(choice.value))
    else Success(choice.value)
  }

  predicate Goes(d: Result<Decision, Stop>) {
    d.Success? && d.value.eligible
  }

  /** Decides about one image, with the references of now and those of later. */
  method PlanImage(inventory: Inventory, now: int, profile: Profile, report: Report, id: string, refs: set<string>,
                   laterRefs: set<string>)
    returns (r: Result<(), Stop>)
    requires id in inventory.images
    modifies report`candidates, report`dependents
    ensures report.candidates.containers == old(report.candidates.containers)
    ensures report.candidates.networks == old(report.candidates.networks)
    ensures report.dependents.containers == old(report.dependents.containers)
    ensures report.dependents.networks == old(report.dependents.networks)
    ensures var goes := Goes(ProfiledDecision(id, inventory.images[id], inventory.policy, now, profile, inventory.sample,
                                              refs, inventory.protectedImages));
            var goesLater := Goes(ProfiledDecision(id, inventory.images[id], inventory.policy, now, profile, inventory.sample,
                                                   laterRefs, inventory.protectedImages));
            r.Success? && inventory.steady ==>
              report.candidates.images == old(report.candidates.images) + (if goes then {id} else {}) &&
              report.dependents.images == old(report.dependents.images) + if !goes && goesLater then {id} else {}
  {
    var images, policy, protected := inventory.images, inventory.policy, inventory.protectedImages;
    var _ :- inventory.engine.Remaining();
    var pressured := inventory.Pressure();
    var choice :- ProfiledDecision(id, images[id], policy, now, profile, pressured, refs, protected);
    var later :- ProfiledDecision(id, images[id], policy, now, profile, pressured, laterRefs, protected);
    report.Decide(Images, id, choice, !choice.eligible && later.eligible);
    return Success(());
  }

  method PlanImages(inventory: Inventory, now: int, profile: Profile, report: Report, refs: set<string>, laterRefs: set<string>)
    returns (r: Result<(), Stop>)
    requires report.candidates.images == report.dependents.images == {}
    modifies report`candidates, report`dependents
    ensures report.candidates.containers == old(report.candidates.containers)
    ensures report.candidates.networks == old(report.candidates.networks)
    ensures report.dependents.containers == old(report.dependents.containers)
    ensures report.dependents.networks == old(report.dependents.networks)
    ensures r.Success? && inventory.steady ==>
              report.candidates.images ==
              set i | i in inventory.images &&
                      Goes(ProfiledDecision(i, inventory.images[i], inventory.policy, now, profile, inventory.sample,
                                            refs, inventory.protectedImages))
    ensures r.Success? && inventory.steady ==>
              report.dependents.images ==
              set i | i in inventory.images &&
                      !Goes(ProfiledDecision(i, inventory.images[i], inventory.policy, now, profile, inventory.sample,
                                             refs, inventory.protectedImages)) &&
                      Goes(ProfiledDecision(i, inventory.images[i], inventory.policy, now, profile, inventory.sample,
                                            laterRefs, inventory.protectedImages))
  {
    var images, policy, protected := inventory.images, inventory.policy, inventory.protectedImages;
    var rest := images.Keys;
    while rest != {}
      invariant rest <= images.Keys
      invariant report.candidates.containers == old(report.candidates.containers)
      invariant report.candidates.networks == old(report.candidates.networks)
      invariant report.dependents.containers == old(report.dependents.containers)
      invariant report.dependents.networks == old(report.dependents.networks)
      invariant inventory.steady ==>
                report.candidates.images ==
                set i | i in images && i !in rest &&
                        Goes(ProfiledDecision(i, images[i], policy, now, profile, inventory.sample, refs, protected))
      invariant inventory.steady ==>
                report.dependents.images ==
                set i | i in images && i !in rest &&
                        !Goes(ProfiledDecision(i, images[i], policy, now, profile, inventory.sample, refs, protected)) &&
                        Goes(ProfiledDecision(i, images[i], policy, now, profile, inventory.sample, laterRefs, protected))
    {
      var i :| i in rest;
      rest := rest - {i};
      var _ :- PlanImage(inventory, now, profile, report, i, refs, laterRefs);
    }
    return Success(());
  }

  /** A network is announced, now or as a dependent, exactly when it goes once the eligible containers are gone. */
  lemma NetworkAnnounced(w: World, t: Terms, n: string, refs: set<string>, laterRefs: set<string>)
    requires n in w.networks && (n in refs <==> n in NetworkRefs(w.containers, w.networks))
    requires n in laterRefs <==> n in NetworkRefs(w.containers - GoingContainers(w, t), w.networks)
    ensures var going := GoingContainers(w, t);
            n in Planned(w, t).networks <==>
            NetworkDecision(n, w.networks[n], t.policy, t.now, refs).eligible ||
            NetworkDecision(n, Detached(w.networks[n], going), t.policy, t.now, laterRefs).eligible
  {
    var later := Later(w, t);
    SameNameSameRefs(later.containers, w.networks, later.networks, n);
    AfterNothing(w);
    NetworkStep(w, t, NOTHING, n, w.networks);
  }

  /** The same for an image. */
  lemma ImageAnnounced(w: World, t: Terms, i: string)
    requires i in w.images
    ensures i in Planned(w, t).images <==>
            Goes(ProfiledDecision(i, w.images[i], t.policy, t.now, t.profile, t.pressured, ImageRefs(w.containers), t.protected)) ||
            Goes(ProfiledDecision(i, w.images[i], t.policy, t.now, t.profile, t.pressured,
                                  ImageRefs(w.containers - GoingContainers(w, t)), t.protected))
  {
    AfterNothing(w);
    ImageStep(w, t, NOTHING, i);
  }

  /** Announces what an apply on this inventory would remove: candidates as things are, and dependent candidates
      that become eligible once the eligible containers are gone. It asks the daemon nothing. */
  method Plan(inventory: Inventory, now: int, profile: Profile, report: Report) returns (r: Result<(), Stop>)
    requires report.candidates == report.dependents == NOTHING
    modifies report`candidates, report`dependents
    ensures r.Success? && inventory.steady ==>
              var w := Snapshot(inventory);
              var t := TermsOf(inventory, now, profile);
              report.candidates.containers == Planned(w, t).containers && report.dependents.containers == {} &&
              report.candidates.networks + report.dependents.networks == Planned(w, t).networks &&
              report.candidates.images + report.dependents.images == Planned(w, t).images
    ensures r.Success? && inventory.steady ==>
              report.candidates.networks !! report.dependents.networks &&
              report.candidates.images !! report.dependents.images
  {
    ghost var w, t := Snapshot(inventory), TermsOf(inventory, now, profile);
    var removable :- PlanContainers(inventory, now, report);
    var refs :- inventory.References({});
    // What could be read with all containers can be read without some of them.
    var later := inventory.References(removable);
    var laterRefs := later.value;
    var _ :- PlanNetworks(inventory, now, report, removable, refs.1, laterRefs.1);
    var _ :- PlanImages(inventory, now, profile, report, refs.0, laterRefs.0);
    assert w.containers - {} == w.containers;
    assert removable == GoingContainers(w, t);
    forall n | n in w.networks
      ensures n in Planned(w, t).networks <==> n in report.candidates.networks + report.dependents.networks
    {
      NetworkAnnounced(w, t, n, refs.1, laterRefs.1);
    }
    forall i | i in w.images && inventory.steady
      ensures i in Planned(w, t).images <==> i in report.candidates.images + report.dependents.images
    {
      ImageAnnounced(w, t, i);
    }
    return Success(());
  }
}
