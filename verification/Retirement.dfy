/** Retiring the suite's own version tags: dry run and effect. */
module Retirement {
  import opened Wrappers
  import opened References
  import opened Policy
  import opened Usage
  import opened Engines
  import opened Plans
  import opened Inventories

  const OWNER := "ghcr.io/myflow-xyz/ci-"
  const NAMES := ["base", "go", "node", "vite", "playwright", "postgres", "utils", "net"]

  /** Every tag, plain or with a v, that one of the selected versions can have. */
  function Wanted(selected: set<string>): (refs: set<string>) {
    set name, version, prefix | name in NAMES && version in selected && prefix in ["", "v"] ::
      OWNER + name + ":" + prefix + version
  }

  predicate Carries(item: Image, ref: string) {
    Some(ref) in Refs(item.tags)
  }

  /** The tag resolves to the image if the image carries it. */
  predicate Resolves(w: World, i: string, ref: string) {
    i in w.images && Carries(w.images[i], ref) ==> ref in w.names && w.names[ref] == i
  }

  /** A daemon resolves the tags that its images carry. */
  ghost predicate Consistent(w: World) {
    (forall i, ref {:trigger Resolves(w, i, ref)} :: Resolves(w, i, ref)) &&
    (forall ref :: ref in w.names ==> w.names[ref] in w.images)
  }

  predicate Safe(w: World, policy: Settings, i: string) {
    i in w.images &&
    Eligible(ImageSafety(i, w.images[i], policy, ImageRefs(w.containers), ProtectedImages(w.names, policy.protection)))
  }

  /** The tags that go: wanted ones of images that nothing protects and no container uses. */
  function Retirable(w: World, policy: Settings, wanted: set<string>): (refs: set<string>) {
    set i, ref | i in w.images && ref in wanted && Carries(w.images[i], ref) && Safe(w, policy, i) :: ref
  }

  /** Where the daemon is once the tags `gone` were removed from `w`: images only lost those tags, an image that is
      gone had no others, and whatever is protected or used was never touched. */
  ghost predicate Retired(v: World, w: World, policy: Settings, gone: set<string>) {
    v.containers == w.containers && v.images.Keys <= w.images.Keys && Consistent(v) &&
    (forall i {:trigger ImageRetired(v, w, policy, gone, i)} :: ImageRetired(v, w, policy, gone, i)) &&
    (forall ref {:trigger NameRetired(v, w, policy, ref)} :: NameRetired(v, w, policy, ref))
  }

  ghost predicate NameRetired(v: World, w: World, policy: Settings, ref: string) {
    (ref in v.names ==> ref in w.names && v.names[ref] == w.names[ref]) &&
    (ref in w.names && ref !in v.names ==> Safe(w, policy, w.names[ref]))
  }

  ghost predicate ImageRetired(v: World, w: World, policy: Settings, gone: set<string>, i: string) {
    i in w.images ==>
      (if i in v.images then
         v.images[i] == w.images[i] || (Safe(w, policy, i) && FewerAliases(v.images[i], w.images[i]))
       else Safe(w, policy, i)) &&
      forall ref {:trigger TagRetired(v, w, gone, i, ref)} :: TagRetired(v, w, gone, i, ref)
  }

  /** The image carries the tag exactly when it did and the tag was not removed. */
  ghost predicate TagRetired(v: World, w: World, gone: set<string>, i: string, ref: string)
    requires i in w.images
  {
    i in v.images && Carries(v.images[i], ref) <==> Carries(w.images[i], ref) && ref !in gone
  }

  /** What survives: every tag that was not removed, on the same image. */
  lemma OtherTagsSurvive(v: World, w: World, policy: Settings, gone: set<string>, i: string, ref: string)
    requires Retired(v, w, policy, gone) && i in w.images && Carries(w.images[i], ref) && ref !in gone
    ensures i in v.images && Carries(v.images[i], ref) && ref in v.names && v.names[ref] == i
  {
    assert ImageRetired(v, w, policy, gone, i) && TagRetired(v, w, gone, i, ref) && Resolves(v, i, ref);
  }

  /** Protected and used images keep all their aliases. */
  lemma UnsafeImagesUntouched(v: World, w: World, policy: Settings, gone: set<string>, i: string)
    requires Retired(v, w, policy, gone) && i in w.images && !Safe(w, policy, i)
    ensures i in v.images && v.images[i] == w.images[i]
  {
    assert ImageRetired(v, w, policy, gone, i);
  }

  lemma ProtectionStays(v: World, w: World, policy: Settings, gone: set<string>)
    requires Retired(v, w, policy, gone)
    ensures ProtectedImages(v.names, policy.protection) == ProtectedImages(w.names, policy.protection)
  {
    forall ref | ref in policy.protection.imageReferences
      ensures ref in v.names <==> ref in w.names
      ensures ref in v.names ==> v.names[ref] == w.names[ref]
    {
      assert NameRetired(v, w, policy, ref);
      assert ref in w.names ==> w.names[ref] in ProtectedImages(w.names, policy.protection);
    }
  }

  /** An image is safe during the run exactly when it was safe at the start: it only loses aliases once it was. */
  lemma SafetyStays(v: World, w: World, policy: Settings, gone: set<string>, i: string)
    requires Retired(v, w, policy, gone) && i in v.images
    ensures Safe(v, policy, i) <==> Safe(w, policy, i)
  {
    ProtectionStays(v, w, policy, gone);
    assert ImageRetired(v, w, policy, gone, i);
    if Safe(w, policy, i) && v.images[i] != w.images[i] {
      SafetySurvivesAliasLoss(i, v.images[i], w.images[i], policy, ImageRefs(w.containers),
                              ProtectedImages(w.names, policy.protection));
    }
  }

  lemma WithoutTagLosesIt(item: Image, ref: string, digests: set<Option<string>>)
    requires !Unlisted(item.tags) && !Unlisted(item.digests)
    ensures FewerAliases(WithoutTag(item, ref, digests), item)
    ensures forall other :: Carries(WithoutTag(item, ref, digests), other) <==> Carries(item, other) && other != ref
  {
  }

  /** Untagging one more reference of a safe image. */
  lemma UntagStep(next: World, v: World, w: World, policy: Settings, gone: set<string>, ref: string)
    requires Retired(v, w, policy, gone) && ref in v.names && v.names[ref] in v.images && Safe(w, policy, v.names[ref])
    requires IsUntagged(next, v, ref)
    ensures Retired(next, w, policy, gone + {ref})
  {
    var id := v.names[ref];
    var keep, digests, names :| next == Untagged(v, ref, keep, digests, names);
    SafetyStays(v, w, policy, gone, id);
    WithoutTagLosesIt(v.images[id], ref, digests);
    forall i
      ensures ImageRetired(next, w, policy, gone + {ref}, i)
    {
      if i == id {
        ImageUntagged(next, v, w, policy, gone, ref, keep, digests, names);
      } else {
        OtherImage(next, v, w, policy, gone, ref, i);
      }
    }
    forall other
      ensures NameRetired(next, w, policy, other)
    {
      assert NameRetired(v, w, policy, other);
    }
    UntaggedIsConsistent(next, v, ref, keep, digests, names);
  }

  lemma UntaggedIsConsistent(next: World, v: World, ref: string, keep: bool, digests: set<Option<string>>, names: set<string>)
    requires Consistent(v) && ref in v.names && v.names[ref] in v.images
    requires !Unlisted(v.images[v.names[ref]].tags) && !Unlisted(v.images[v.names[ref]].digests)
    requires next == Untagged(v, ref, keep, digests, names)
    ensures Consistent(next)
  {
    WithoutTagLosesIt(v.images[v.names[ref]], ref, digests);
    forall i, other
      ensures Resolves(next, i, other)
    {
      assert Resolves(v, i, other);
    }
  }

  lemma OtherImage(next: World, v: World, w: World, policy: Settings, gone: set<string>, ref: string, i: string)
    requires Retired(v, w, policy, gone) && ref in v.names && v.names[ref] != i
    requires (i in next.images <==> i in v.images) && (i in v.images ==> next.images[i] == v.images[i])
    ensures ImageRetired(next, w, policy, gone + {ref}, i)
  {
    assert ImageRetired(v, w, policy, gone, i) && Resolves(v, i, ref);
    if i in w.images {
      forall other
        ensures TagRetired(next, w, gone + {ref}, i, other)
      {
        assert TagRetired(v, w, gone, i, other);
      }
    }
  }

  lemma ImageUntagged(next: World, v: World, w: World, policy: Settings, gone: set<string>, ref: string, keep: bool,
                      digests: set<Option<string>>, names: set<string>)
    requires Retired(v, w, policy, gone) && ref in v.names && v.names[ref] in v.images && Safe(w, policy, v.names[ref])
    requires !Unlisted(v.images[v.names[ref]].tags) && !Unlisted(v.images[v.names[ref]].digests)
    requires next == Untagged(v, ref, keep, digests, names)
    ensures ImageRetired(next, w, policy, gone + {ref}, v.names[ref])
  {
    var id := v.names[ref];
    var item := WithoutTag(v.images[id], ref, digests);
    WithoutTagLosesIt(v.images[id], ref, digests);
    assert ImageRetired(v, w, policy, gone, id);
    FewerOfFewer(item, v.images[id], w.images[id]);
    forall other
      ensures TagRetired(next, w, gone + {ref}, id, other)
    {
      assert TagRetired(v, w, gone, id, other);
      assert id !in next.images ==> !Carries(item, other);
    }
  }

  lemma FewerOfFewer(least: Image, fewer: Image, item: Image)
    requires FewerAliases(least, fewer) && (fewer == item || FewerAliases(fewer, item))
    ensures FewerAliases(least, item)
  {
    forall k | 0 <= k < |Refs(least.tags)|
      ensures Refs(least.tags)[k] in Refs(item.tags)
    {
      assert Refs(least.tags)[k] in Refs(fewer.tags);
    }
    forall k | 0 <= k < |Refs(least.digests)|
      ensures Refs(least.digests)[k] in Refs(item.digests)
    {
      assert Refs(least.digests)[k] in Refs(fewer.digests);
    }
  }

  lemma NothingRetired(w: World, policy: Settings)
    requires Consistent(w)
    ensures Retired(w, w, policy, {})
  {
  }

  /** A wanted tag that is still there is on its image, which is safe exactly when the tag was to go. */
  lemma WantedTag(v: World, w: World, policy: Settings, gone: set<string>, wanted: set<string>, i: string, ref: string)
    requires Consistent(w) && Retired(v, w, policy, gone) && ref in wanted && ref !in gone
    requires i in w.images && Carries(w.images[i], ref)
    ensures i in v.images && Carries(v.images[i], ref) && ref in v.names && v.names[ref] == i
    ensures Safe(v, policy, i) <==> ref in Retirable(w, policy, wanted)
    ensures Safe(v, policy, i) <==> Safe(w, policy, i)
  {
    OtherTagsSurvive(v, w, policy, gone, i, ref);
    SafetyStays(v, w, policy, gone, i);
    forall j | j in w.images && Carries(w.images[j], ref)
      ensures j == i
    {
      assert Resolves(w, j, ref) && Resolves(w, i, ref);
    }
  }

  class TagReport {
    var wouldRemove: set<string>
    var removed: set<string>
    /** Tags the daemon would not remove. */
    var refused: set<string>

    constructor ()
      ensures wouldRemove == removed == refused == {}
    {
      wouldRemove, removed, refused := {}, {}, {};
    }
  }

  /** The images the containers run, read afresh. */
  method ContainerImages(inventory: Inventory) returns (r: Result<set<string>, Stop>)
    requires inventory.engine.Ready()
    modifies inventory`containers, inventory.engine`log, inventory.engine.daemon`world, inventory.engine.daemon`cache
    ensures inventory.engine.Ready() && old(inventory.engine.log) <= inventory.engine.log
    ensures inventory.engine.daemon.quiet ==> inventory.engine.daemon.world == old(inventory.engine.daemon.world)
    ensures r.Success? && inventory.engine.daemon.quiet ==> r.value == ImageRefs(inventory.engine.daemon.world.containers)
    ensures r.Success? ==> r.value == ImageRefs(inventory.containers) &&
                           Collected(inventory.engine.log, |old(inventory.engine.log)|, inventory.containers)
  {
    var _ :- inventory.RefreshContainers();
    var containers := inventory.containers;
    var ids: set<string> := {};
    var rest := containers.Keys;
    while rest != {}
      invariant rest <= containers.Keys
      invariant ids == set c | c in containers && c !in rest && containers[c].image.Some? :: containers[c].image.value
    {
      var c :| c in rest;
      rest := rest - {c};
      if containers[c].image == None || !ImageId(containers[c].image.value) {
        return Failure(Failed(5));
      }
      ids := ids + {containers[c].image.value};
    }
    return Success(ids);
  }

  /** Every wanted tag is found where it is carried. */
  ghost predicate AllMatched(matches: map<string, string>, images: map<string, Image>, wanted: set<string>) {
    forall i, ref {:trigger Carries(images[i], ref)} ::
      i in images && ref in wanted && Carries(images[i], ref) ==> ref in matches && matches[ref] == i
  }

  /** Adds the wanted tags of one image; each must be new. */
  method MatchTags(matches: map<string, string>, i: string, tags: seq<Option<string>>, wanted: set<string>)
    returns (r: Result<map<string, string>, Stop>)
    ensures r.Failure? ==>
              r.error == Failed(5) &&
              exists k :: 0 <= k < |tags| &&
                (tags[k] == None || (tags[k].value in wanted && (tags[k].value in matches || tags[k] in tags[..k])))
    ensures r.Success? ==>
              forall ref :: ref in r.value <==> ref in matches || (ref in wanted && Some(ref) in tags)
    ensures r.Success? ==>
              forall ref :: ref in r.value ==> r.value[ref] == if ref in matches then matches[ref] else i
    ensures r.Success? ==> forall ref :: ref in matches && ref in wanted ==> Some(ref) !in tags
    ensures r.Success? ==> forall k :: 0 <= k < |tags| ==> tags[k].Some? && (tags[k].value in wanted ==> tags[k] !in tags[..k])
  {
    var all := matches;
    for k := 0 to |tags|
      invariant forall ref :: ref in all <==> ref in matches || (ref in wanted && Some(ref) in tags[..k])
      invariant forall ref :: ref in all ==> all[ref] == if ref in matches then matches[ref] else i
      invariant forall ref :: ref in matches && ref in wanted ==> Some(ref) !in tags[..k]
      invariant forall j :: 0 <= j < k ==> tags[j].Some? && (tags[j].value in wanted ==> tags[j] !in tags[..j])
    {
      assert tags[..k + 1] == tags[..k] + [tags[k]];
      if tags[k] == None {
        return Failure(Failed(5));
      }
      if tags[k].value in wanted {
        if tags[k].value in all {
          return Failure(Failed(5));
        }
        all := all[tags[k].value := i];
      }
    }
    assert tags[..|tags|] == tags;
    return Success(all);
  }

  /** Which image carries which wanted tag; a tag on two images, or twice on one, is a contradiction. */
  method Matches(images: map<string, Image>, wanted: set<string>) returns (r: Result<map<string, string>, Stop>)
    ensures r.Failure? ==> r.error == Failed(5)
    ensures r.Success? ==>
              forall ref :: ref in r.value ==> ref in wanted && r.value[ref] in images && Carries(images[r.value[ref]], ref)
    ensures r.Success? ==> AllMatched(r.value, images, wanted)
  {
    var matches: map<string, string> := map[];
    var rest := images.Keys;
    while rest != {}
      invariant rest <= images.Keys
      invariant forall ref :: ref in matches ==>
                  ref in wanted && matches[ref] in images && matches[ref] !in rest && Carries(images[matches[ref]], ref)
      invariant forall i, ref {:trigger Carries(images[i], ref)} ::
                  i in images && i !in rest && ref in wanted && Carries(images[i], ref) ==> ref in matches && matches[ref] == i
    {
      var i :| i in rest;
      rest := rest - {i};
      if images[i].tags.NotAList? {
        return Failure(Failed(5));
      }
      matches :- MatchTags(matches, i, Refs(images[i].tags), wanted);
    }
    return Success(matches);
  }

  /** The run started with `w`. On a daemon that others leave alone only retirable tags went. */
  ghost predicate OnCourse(inventory: Inventory, w: World, wanted: set<string>)
    reads inventory, inventory.engine, inventory.engine.daemon
  {
    var daemon := inventory.engine.daemon;
    inventory.Justified() && inventory.engine.rule == ForTags(inventory.policy, wanted) &&
    (daemon.quiet ==>
       Consistent(w) && Retired(daemon.world, w, inventory.policy, daemon.untagged) &&
       daemon.untagged <= Retirable(w, inventory.policy, wanted))
  }

  /** What the daemon says about one tag: the image and its metadata, or nothing if there is none. */
  method InspectTag(inventory: Inventory, ref: string) returns (r: Result<Option<(string, Image)>, Stop>)
    requires inventory.engine.Ready()
    modifies inventory.engine`log, inventory.engine.daemon`world, inventory.engine.daemon`cache
    ensures inventory.engine.Ready() && old(inventory.engine.log) <= inventory.engine.log
    ensures var daemon := inventory.engine.daemon;
            daemon.quiet ==> daemon.world == old(daemon.world)
    ensures var world := inventory.engine.daemon.world;
            r.Success? ==>
              OneRead(old(inventory.engine.log), inventory.engine.log, ByName(ref), true, world) &&
              if ref in world.names && world.names[ref] in world.images
              then r.value == Some((world.names[ref], world.images[world.names[ref]])) else r.value == None
  {
    var got := inventory.engine.Get(ByName(ref));
    var world := inventory.engine.daemon.world;
    var id := Answered(got, world.names, ref);
    if id == Failure(Refused(404)) {
      return Success(None);
    }
    if id.Failure? {
      return Failure(id.error);
    }
    return Success(if id.value in world.images then Some((id.value, world.images[id.value])) else None);
  }

  /** Fresh references, protections and metadata of a tag; nothing if it is gone. */
  method ReadTag(inventory: Inventory, ref: string)
    returns (r: Result<Option<(string, Image, set<string>)>, Stop>, ghost basis: Basis)
    requires inventory.engine.Ready() && inventory.Justified() && inventory.engine.rule.policy == inventory.policy
    modifies inventory, inventory.engine`log, inventory.engine`verified
    modifies inventory.engine.daemon`world, inventory.engine.daemon`cache
    ensures inventory.engine.Ready() && inventory.Justified() && old(inventory.engine.log) <= inventory.engine.log
    ensures inventory.engine.daemon.quiet ==> inventory.engine.daemon.world == old(inventory.engine.daemon.world)
    ensures var world := inventory.engine.daemon.world;
            r.Success? && inventory.engine.daemon.quiet ==>
              inventory.protectedImages == ProtectedImages(world.names, inventory.policy.protection) &&
              (ref in world.names && world.names[ref] in world.images ==>
                 r.value == Some((world.names[ref], world.images[world.names[ref]], ImageRefs(world.containers))))
    ensures r.Success? && r.value.Some? ==>
              Fits(inventory.engine.log, inventory.engine.rule, ref, basis) && basis.OnTag? &&
              basis.id == r.value.value.0 && basis.image == r.value.value.1 && ImageRefs(basis.users) == r.value.value.2 &&
              basis.protected == inventory.protectedImages
  {
    basis := OnContainer(Container(None, None, None, None, None, None, None));
    var _ :- inventory.engine.Guard();
    var _ :- inventory.engine.Preflight();
    ghost var from := |inventory.engine.log|;
    var referenced :- ContainerImages(inventory);
    ghost var log := inventory.engine.log;
    var _ :- inventory.ResolveProtections();
    ghost var later := inventory.engine.log;
    var found :- InspectTag(inventory, ref);
    if found == None {
      return Success(None), basis;
    }
    var (id, item) := found.value;
    basis := OnTag(id, item, inventory.containers, inventory.protectedImages, from);
    CollectedLater(log, inventory.engine.log, from, inventory.containers);
    ResolvedSince(later, inventory.engine.log, |log|, from, inventory.policy.protection, inventory.protectedImages);
    return Success(Some((id, item, referenced))), basis;
  }

  /** Fresh data about a tag that the snapshot found on image `i`: whether it may be removed now. */
  method Recheck(inventory: Inventory, ref: string, i: string, ghost w: World, ghost wanted: set<string>)
    returns (r: Result<bool, Stop>, ghost basis: Basis)
    requires inventory.engine.Ready() && OnCourse(inventory, w, wanted) && ref in wanted
    requires inventory.engine.daemon.quiet ==>
               ref !in inventory.engine.daemon.untagged && i in w.images && Carries(w.images[i], ref)
    modifies inventory, inventory.engine`log, inventory.engine`verified
    modifies inventory.engine.daemon`world, inventory.engine.daemon`cache
    ensures inventory.engine.Ready() && OnCourse(inventory, w, wanted) && old(inventory.engine.log) <= inventory.engine.log
    ensures inventory.engine.daemon.quiet ==> inventory.engine.daemon.world == old(inventory.engine.daemon.world)
    ensures r.Success? && inventory.engine.daemon.quiet ==> r.value == (ref in Retirable(w, inventory.policy, wanted))
    ensures r == Success(true) ==>
              Allows(inventory.engine.rule, Images, ref, basis) && Fits(inventory.engine.log, inventory.engine.rule, ref, basis)
  {
    var daemon := inventory.engine.daemon;
    if daemon.quiet {
      WantedTag(daemon.world, w, inventory.policy, daemon.untagged, wanted, i, ref);
    }
    var found, read := ReadTag(inventory, ref);
    basis := read;
    if found.Failure? {
      return Failure(found.error), basis;
    }
    if found.value == None || found.value.value.0 != i {
      return Success(false), basis;
    }
    var (_, item, referenced) := found.value.value;
    var choice := ImageSafety(i, item, inventory.policy, referenced, inventory.protectedImages);
    if choice.Failure? {
      return Failure(Failed(2)), basis;
    }
    return Success(choice.value.eligible && Carries(item, ref)), basis;
  }

  /** Removes one tag and says so; a reply that does not name the tag stops the run. */
  method RemoveTag(inventory: Inventory, report: TagReport, ref: string, ghost basis: Basis,
                   ghost w: World, ghost wanted: set<string>)
    returns (r: Result<(), Stop>)
    requires inventory.engine.Ready() && OnCourse(inventory, w, wanted)
    requires Allows(inventory.engine.rule, Images, ref, basis) && Fits(inventory.engine.log, inventory.engine.rule, ref, basis)
    requires var daemon := inventory.engine.daemon;
             daemon.quiet ==> ref in daemon.world.names && daemon.world.names[ref] in daemon.world.images &&
                              Safe(w, inventory.policy, daemon.world.names[ref]) && ref in Retirable(w, inventory.policy, wanted)
    modifies report`removed, report`refused, inventory.engine`log, inventory.engine`mutationStarted, inventory.engine`calmSince
    modifies inventory.engine.daemon`world, inventory.engine.daemon`cache, inventory.engine.daemon`untagged
    ensures inventory.engine.Sound() && Orderly(inventory.engine.log, inventory.engine.rule, r)
    ensures old(inventory.engine.log) <= inventory.engine.log
    ensures OnCourse(inventory, w, wanted)
    ensures inventory.engine.daemon.untagged == old(inventory.engine.daemon.untagged) ||
            inventory.engine.daemon.untagged == old(inventory.engine.daemon.untagged) + {ref}
    ensures old(report.refused) <= report.refused
    ensures r.Success? && old(report.removed == inventory.engine.daemon.untagged) ==>
              report.removed == inventory.engine.daemon.untagged
    ensures old(report.removed <= inventory.engine.daemon.untagged) ==>
              report.removed <= inventory.engine.daemon.untagged
    ensures r.Success? && report.refused == {} ==> ref in inventory.engine.daemon.untagged
  {
    var daemon := inventory.engine.daemon;
    ghost var before, gone := daemon.world, daemon.untagged;
    var reply, did := inventory.engine.RemoveReference(ref, basis);
    if daemon.quiet && did {
      UntagStep(daemon.world, before, w, inventory.policy, gone, ref);
      ProtectionStays(before, w, inventory.policy, gone);
      ProtectionStays(daemon.world, w, inventory.policy, daemon.untagged);
    }
    match reply
    case Failure(stop) =>
      if stop in {Refused(404), Refused(409)} {
        report.refused := report.refused + {ref};
        return Success(());
      }
      return Failure(stop);
    case Success(answer) =>
      if answer.Odd? || ref !in answer.untagged {
        return Failure(Failed(6));
      }
      report.removed := report.removed + {ref};
      return Success(());
  }

  /** The dry run's view of one tag: only the snapshot counts. */
  function WouldGo(inventory: Inventory, ref: string, i: string, item: Image, referenced: set<string>): (r: Result<bool, Stop>)
    reads inventory
  {
    var choice := ImageSafety(i, item, inventory.policy, referenced, inventory.protectedImages);
    if choice.Failure? then Failure(Failed(2)) else Success(choice.value.eligible && Carries(item, ref))
  }

  /** One matched tag, in a dry run or not. */
  method RetireTag(inventory: Inventory, apply: bool, report: TagReport, ref: string, i: string, item: Image,
                   referenced: set<string>, ghost w: World, ghost wanted: set<string>)
    returns (r: Result<(), Stop>)
    requires inventory.engine.Ready() && OnCourse(inventory, w, wanted)
    requires ref in wanted
    requires inventory.engine.daemon.quiet ==>
               ref !in inventory.engine.daemon.untagged && i in w.images && item == w.images[i] && Carries(item, ref)
    requires inventory.engine.daemon.quiet && !apply ==>
               inventory.engine.daemon.world == w && referenced == ImageRefs(w.containers) &&
               inventory.protectedImages == ProtectedImages(w.names, inventory.policy.protection)
    modifies report, inventory, inventory.engine, inventory.engine.daemon`world, inventory.engine.daemon`cache
    modifies inventory.engine.daemon`untagged
    ensures inventory.engine.Sound() && Orderly(inventory.engine.log, inventory.engine.rule, r)
    ensures old(inventory.engine.log) <= inventory.engine.log
    ensures OnCourse(inventory, w, wanted) && old(report.refused) <= report.refused
    ensures !apply ==> inventory.engine.daemon.untagged == old(inventory.engine.daemon.untagged) &&
                       inventory.engine.daemon.world == old(inventory.engine.daemon.world) &&
                       inventory.protectedImages == old(inventory.protectedImages) && report.removed == old(report.removed) &&
                       inventory.engine.mutationStarted == old(inventory.engine.mutationStarted)
    ensures inventory.engine.daemon.quiet && !apply && r.Success? ==>
              report.wouldRemove == old(report.wouldRemove) + if ref in Retirable(w, inventory.policy, wanted) then {ref} else {}
    ensures inventory.engine.daemon.untagged == old(inventory.engine.daemon.untagged) ||
            inventory.engine.daemon.untagged == old(inventory.engine.daemon.untagged) + {ref}
    ensures r.Success? && old(report.removed == inventory.engine.daemon.untagged) ==>
              report.removed == inventory.engine.daemon.untagged
    ensures old(report.removed <= inventory.engine.daemon.untagged) ==>
              report.removed <= inventory.engine.daemon.untagged
    ensures inventory.engine.daemon.quiet && apply && r.Success? && report.refused == {} ==>
              (ref in Retirable(w, inventory.policy, wanted) ==> ref in inventory.engine.daemon.untagged)
  {
    var daemon := inventory.engine.daemon;
    if daemon.quiet {
      WantedTag(daemon.world, w, inventory.policy, daemon.untagged, wanted, i, ref);
    }
    if apply {
      var goes, basis :- Recheck(inventory, ref, i, w, wanted);
      if goes {
        r := RemoveTag(inventory, report, ref, basis, w, wanted);
      } else {
        r := Success(());
      }
    } else {
      var goes :- WouldGo(inventory, ref, i, item, referenced);
      if goes {
        report.wouldRemove := report.wouldRemove + {ref};
      }
      r := Success(());
    }
  }

  /** The tags that the snapshot found: wanted ones, each on the image that carried it, and all retirable ones. */
  ghost predicate Found(matches: map<string, string>, images: map<string, Image>, w: World, policy: Settings,
                        wanted: set<string>)
  {
    Retirable(w, policy, wanted) <= matches.Keys && images == w.images &&
    forall ref :: ref in matches ==> ref in wanted && matches[ref] in images && Carries(images[matches[ref]], ref)
  }

  lemma RetirableIsFound(matches: map<string, string>, w: World, policy: Settings, wanted: set<string>, ref: string)
    requires AllMatched(matches, w.images, wanted) && ref in Retirable(w, policy, wanted)
    ensures ref in matches
  {
    var i :| i in w.images && ref in wanted && Carries(w.images[i], ref);
  }

  /** The snapshot, and what it matched. */
  method FindMatches(inventory: Inventory, wanted: set<string>, ghost w: World)
    returns (r: Result<(map<string, string>, set<string>), Stop>)
    requires inventory.engine.Ready() && OnCourse(inventory, w, wanted)
    requires inventory.engine.daemon.untagged == {} && inventory.engine.daemon.world == w
    modifies inventory, inventory.engine`log, inventory.engine.daemon`world, inventory.engine.daemon`cache
    ensures inventory.engine.Ready() && OnCourse(inventory, w, wanted) && old(inventory.engine.log) <= inventory.engine.log
    ensures r.Success? ==> forall ref :: ref in r.value.0 ==> ref in wanted && r.value.0[ref] in inventory.images
    ensures r.Success? && inventory.engine.daemon.quiet ==>
              inventory.engine.daemon.world == w && r.value.1 == ImageRefs(w.containers) &&
              inventory.protectedImages == ProtectedImages(w.names, inventory.policy.protection) &&
              Found(r.value.0, inventory.images, w, inventory.policy, wanted)
  {
    var _ :- inventory.RefreshImages();
    var referenced :- ContainerImages(inventory);
    var _ :- inventory.ResolveProtections();
    var images := inventory.images;
    var matches :- Matches(images, wanted);
    if inventory.engine.daemon.quiet {
      forall ref | ref in Retirable(w, inventory.policy, wanted)
        ensures ref in matches
      {
        RetirableIsFound(matches, w, inventory.policy, wanted, ref);
      }
    }
    return Success((matches, referenced));
  }

  /** All matched tags, in any order. */
  method RetireMatches(inventory: Inventory, matches: map<string, string>, images: map<string, Image>, referenced: set<string>,
                       apply: bool, report: TagReport, ghost w: World, ghost wanted: set<string>)
    returns (r: Result<(), Stop>)
    requires inventory.engine.Ready() && OnCourse(inventory, w, wanted)
    requires inventory.engine.daemon.untagged == {} && forall ref :: ref in matches ==> ref in wanted && matches[ref] in images
    requires inventory.engine.daemon.quiet ==>
               inventory.engine.daemon.world == w && referenced == ImageRefs(w.containers) &&
               inventory.protectedImages == ProtectedImages(w.names, inventory.policy.protection) &&
               Found(matches, images, w, inventory.policy, wanted)
    requires report.wouldRemove == report.removed == report.refused == {}
    modifies report, inventory, inventory.engine, inventory.engine.daemon`world, inventory.engine.daemon`cache
    modifies inventory.engine.daemon`untagged
    ensures inventory.engine.Sound() && Orderly(inventory.engine.log, inventory.engine.rule, r)
    ensures old(inventory.engine.log) <= inventory.engine.log
    ensures OnCourse(inventory, w, wanted)
    ensures !apply ==> inventory.engine.mutationStarted == old(inventory.engine.mutationStarted) &&
                       inventory.engine.daemon.untagged == {} && report.removed == {}
    ensures inventory.engine.daemon.quiet && r.Success? && !apply ==>
              report.wouldRemove == Retirable(w, inventory.policy, wanted)
    ensures r.Success? ==> report.removed == inventory.engine.daemon.untagged
    ensures report.removed <= inventory.engine.daemon.untagged
    ensures inventory.engine.daemon.quiet && r.Success? && apply && report.refused == {} ==>
              report.removed == Retirable(w, inventory.policy, wanted)
  {
    var engine := inventory.engine;
    var daemon := engine.daemon;
    ghost var retirable := Retirable(w, inventory.policy, wanted);
    var rest := matches.Keys;
    while rest != {}
      invariant rest <= matches.Keys && engine.Ready() && old(engine.log) <= engine.log
      invariant OnCourse(inventory, w, wanted) && report.removed == daemon.untagged
      invariant !apply ==> daemon.untagged == {} && engine.mutationStarted == old(engine.mutationStarted)
      invariant daemon.quiet && !apply ==>
                  daemon.world == w && inventory.protectedImages == ProtectedImages(w.names, inventory.policy.protection) &&
                  report.wouldRemove == set ref | ref in retirable && ref !in rest
      invariant daemon.quiet ==> daemon.untagged !! rest
      invariant daemon.quiet && apply && report.refused == {} ==>
                  forall ref :: ref in retirable && ref !in rest ==> ref in daemon.untagged
    {
      var ref :| ref in rest;
      rest := rest - {ref};
      var _ :- RetireTag(inventory, apply, report, ref, matches[ref], images[matches[ref]], referenced, w, wanted);
    }
    return Success(());
  }

  /** Retires the selected versions, or says what it would retire. On a daemon that others leave alone the dry run
      reports exactly the retirable tags; an apply never removes any other, and one that gets to its end without a
      refusal removed them all. */
  method RemoveVersions(inventory: Inventory, selected: set<string>, apply: bool, report: TagReport, ghost w: World)
    returns (r: Result<(), Stop>)
    requires inventory.engine.Ready() && inventory.Justified()
    requires inventory.engine.rule == ForTags(inventory.policy, Wanted(selected))
    requires inventory.engine.daemon.untagged == {} && inventory.engine.daemon.world == w
    requires inventory.engine.daemon.quiet ==> Consistent(w)
    requires report.wouldRemove == report.removed == report.refused == {}
    modifies report, inventory, inventory.engine, inventory.engine.daemon`world, inventory.engine.daemon`cache
    modifies inventory.engine.daemon`untagged
    ensures inventory.engine.Sound() && Orderly(inventory.engine.log, inventory.engine.rule, r)
    ensures old(inventory.engine.log) <= inventory.engine.log
    ensures OnCourse(inventory, w, Wanted(selected))
    ensures !apply ==> inventory.engine.mutationStarted == old(inventory.engine.mutationStarted) &&
                       inventory.engine.daemon.untagged == {} && report.removed == {}
    ensures inventory.engine.daemon.quiet && r.Success? && !apply ==>
              report.wouldRemove == Retirable(w, inventory.policy, Wanted(selected))
    ensures r.Success? ==> report.removed == inventory.engine.daemon.untagged
    ensures report.removed <= inventory.engine.daemon.untagged
    ensures inventory.engine.daemon.quiet && r.Success? && apply && report.refused == {} ==>
              report.removed == Retirable(w, inventory.policy, Wanted(selected))
  {
    if inventory.engine.daemon.quiet {
      NothingRetired(w, inventory.policy);
    }
    var found :- FindMatches(inventory, Wanted(selected), w);
    r := RetireMatches(inventory, found.0, inventory.images, found.1, apply, report, w, Wanted(selected));
  }
}
