/** What a cleanup removes, said once about a whole inventory, and why removing in stages changes nothing. */
module Plans {
  import opened Wrappers
  import opened Policy
  import opened Usage
  import opened Engines

  /** Everything besides the inventory that a decision depends on. */
  datatype Terms = Terms(policy: Settings, now: int, profile: Profile, pressured: Option<bool>, protected: set<string>)

  // ---------------------------------------------------------------------------------------------------
  // What the plan announces

  predicate ContainerGoes(w: World, t: Terms, c: string) {
    c in w.containers && ContainerDecision(c, w.containers[c], t.policy, t.now).eligible
  }

  predicate NetworkGoes(w: World, t: Terms, n: string) {
    n in w.networks && NetworkDecision(n, w.networks[n], t.policy, t.now, NetworkRefs(w.containers, w.networks)).eligible
  }

  predicate ImageGoes(w: World, t: Terms, i: string) {
    i in w.images &&
    Eligible(ImageDecision(i, w.images[i], t.policy, t.now, ImageRefs(w.containers), t.protected)) &&
    ImageProfile(w.images[i], t.policy, t.profile, t.pressured) == None
  }

  function GoingContainers(w: World, t: Terms): (ids: set<string>) {
    set c | c in w.containers && ContainerGoes(w, t, c)
  }

  /** The inventory once all eligible containers are gone. */
  function Later(w: World, t: Terms): (later: World) {
    After(w, Gone(GoingContainers(w, t), {}, {}))
  }

  /** Candidates and dependent candidates together. */
  function Planned(w: World, t: Terms): (gone: Gone) {
    Gone(GoingContainers(w, t),
         set n | n in w.networks && NetworkGoes(Later(w, t), t, n),
         set i | i in w.images && ImageGoes(Later(w, t), t, i))
  }

  // ---------------------------------------------------------------------------------------------------
  // Removal in any order, however far it gets

  lemma FewerContainersReferLess(some: map<string, Container>, all: map<string, Container>, networks: map<string, Network>)
    requires some.Keys <= all.Keys && forall c :: c in some ==> some[c] == all[c]
    ensures ImageRefs(some) <= ImageRefs(all) && NetworkRefs(some, networks) <= NetworkRefs(all, networks)
  {
  }

  /** Only the network itself decides whether it is referenced. */
  lemma SameNameSameRefs(containers: map<string, Container>, one: map<string, Network>, other: map<string, Network>, n: string)
    requires n in one && n in other && one[n].name == other[n].name
    ensures n in NetworkRefs(containers, one) <==> n in NetworkRefs(containers, other)
  {
  }

  /** `gone` is some of what the plan announces. */
  predicate Underway(w: World, t: Terms, gone: Gone) {
    gone.Within(Planned(w, t))
  }

  /** A container removed at any point of the run was announced, and every announced one is eligible at any point. */
  lemma ContainerStep(w: World, t: Terms, gone: Gone, c: string)
    requires c in After(w, gone).containers
    ensures ContainerGoes(After(w, gone), t, c) <==> c in Planned(w, t).containers
  {
  }

  /** A network removed at any point of the run was announced; once all announced containers are gone, every
      announced network is eligible. */
  lemma NetworkStep(w: World, t: Terms, gone: Gone, n: string, loaded: map<string, Network>)
    requires Underway(w, t, gone) && n in After(w, gone).networks
    requires n in loaded && loaded[n].name == w.networks[n].name
    ensures var d := NetworkDecision(n, After(w, gone).networks[n], t.policy, t.now,
                                     NetworkRefs(After(w, gone).containers, loaded));
            (d.eligible ==> n in Planned(w, t).networks) &&
            (gone.containers == Planned(w, t).containers && n in Planned(w, t).networks ==> d.eligible)
  {
    var now, later := After(w, gone), Later(w, t);
    var going := GoingContainers(w, t);
    assert now.networks[n] == Detached(w.networks[n], gone.containers);
    assert later.networks[n] == Detached(w.networks[n], going);
    SameNameSameRefs(now.containers, loaded, later.networks, n);
    var few, refs := NetworkRefs(later.containers, later.networks), NetworkRefs(now.containers, loaded);
    FewerContainersReferLess(later.containers, now.containers, loaded);
    SameNameSameRefs(later.containers, loaded, later.networks, n);
    DetachedTwice(w.networks[n], gone.containers, going);
    assert gone.containers + going == going;
    if NetworkDecision(n, now.networks[n], t.policy, t.now, refs).eligible {
      NetworkEligibilityShrinks(n, now.networks[n], t.policy, t.now, few * refs, refs, going);
      assert n in few <==> n in few * refs;
    }
    if gone.containers == going {
      assert now.containers == later.containers;
    }
  }

  /** The filter on a snapshot lets every announced network through once the announced containers are gone. */
  lemma NetworkPassesFilter(w: World, t: Terms, gone: Gone, n: string)
    requires n in After(w, gone).networks && n in Planned(w, t).networks && gone.containers == Planned(w, t).containers
    ensures NetworkDecision(n, After(w, gone).networks[n], t.policy, t.now, {}).eligible
  {
    var later := Later(w, t);
    var refs := NetworkRefs(later.containers, later.networks);
    NetworkEligibilityShrinks(n, later.networks[n], t.policy, t.now, {}, refs, {});
    DetachedTwice(w.networks[n], gone.containers, {});
    assert gone.containers + {} == gone.containers;
  }

  /** The same for images. Removing images leaves the other images, and what protects them, alone. */
  lemma ImageStep(w: World, t: Terms, gone: Gone, i: string)
    requires Underway(w, t, gone) && i in After(w, gone).images
    ensures ImageGoes(After(w, gone), t, i) ==> i in Planned(w, t).images
    ensures gone.containers == Planned(w, t).containers && i in Planned(w, t).images ==> ImageGoes(After(w, gone), t, i)
  {
    var now, later := After(w, gone), Later(w, t);
    FewerContainersReferLess(later.containers, now.containers, map[]);
    if ImageGoes(now, t, i) {
      ImageEligibilityShrinks(i, w.images[i], t.policy, t.now, ImageRefs(later.containers), t.protected,
                              ImageRefs(now.containers), t.protected);
    }
    if gone.containers == GoingContainers(w, t) {
      assert now.containers == later.containers;
    }
  }

  /** Protected references resolve to the same images all through the run. */
  lemma ProtectionStays(w: World, t: Terms, gone: Gone)
    requires Underway(w, t, gone) && t.protected == ProtectedImages(w.names, t.policy.protection)
    ensures ProtectedImages(After(w, gone).names, t.policy.protection) == t.protected
  {
    forall i | i in gone.images
      ensures i !in t.protected
    {
      assert ImageGoes(Later(w, t), t, i);
    }
    forall r | r in t.policy.protection.imageReferences && r in w.names
      ensures r in After(w, gone).names && After(w, gone).names[r] == w.names[r]
    {
      assert w.names[r] in t.protected;
    }
  }

  /** Deleting one more announced object keeps the run within the plan, whatever is protected included. */
  lemma StepKeepsPlan(w: World, t: Terms, gone: Gone, kind: Kind, id: string)
    requires Underway(w, t, gone) && Planned(w, t).Has(kind, id)
    requires t.protected == ProtectedImages(w.names, t.policy.protection)
    ensures After(After(w, gone), NOTHING.Plus(kind, id)) == After(w, gone.Plus(kind, id))
    ensures Underway(w, t, gone.Plus(kind, id))
    ensures ProtectedImages(After(w, gone).names, t.policy.protection) == t.protected
    ensures ProtectedImages(After(w, gone.Plus(kind, id)).names, t.policy.protection) == t.protected
  {
    AfterOneMore(w, gone, kind, id);
    ProtectionStays(w, t, gone);
    ProtectionStays(w, t, gone.Plus(kind, id));
  }
}
