/** The daemon's objects as the cleanup process last read them. */
module Inventories {
  import opened Wrappers
  import opened References
  import opened Policy
  import opened Usage
  import opened Engines
  import opened Plans

  /** What a truthful daemon answers about one entry: 404 exactly when there is none. */
  function Answered<T>(got: Result<(), Stop>, table: map<string, T>, id: string): (r: Result<T, Stop>) {
    if got.Failure? && got.error != Refused(404) then Failure(got.error)
    else if id in table then Success(table[id])
    else Failure(Refused(404))
  }

  /** One read, answered by the daemon as it is now. */
  ghost predicate OneRead(before: seq<Entry>, after: seq<Entry>, query: Query, ok: bool, world: World) {
    before <= after && |after| == |before| + 1 && after[|before|].Read? && after[|before|].query == query &&
    after[|before|].world == world && (ok ==> after[|before|].ok)
  }

  /** Every network of the inventory was read under this name. */
  ghost predicate NamesKnown(log: seq<Entry>, networks: map<string, Network>) {
    forall n {:trigger KnownBy(log, n, networks[n].name)} :: n in networks ==> KnownBy(log, n, networks[n].name)
  }

  lemma NamesKnownLater(log: seq<Entry>, longer: seq<Entry>, networks: map<string, Network>)
    requires NamesKnown(log, networks) && log <= longer
    ensures NamesKnown(longer, networks)
  {
    forall n | n in networks
      ensures KnownBy(longer, n, networks[n].name)
    {
      assert KnownBy(log, n, networks[n].name);
      KnownByLater(log, longer, n, networks[n].name);
    }
  }

  lemma NothingCollected(log: seq<Entry>, from: nat)
    requires from < |log| && Saw(log[from], ListOf(Containers))
    ensures Collecting(log, from, map[], log[from].world.containers.Keys)
  {
  }

  /** One more container is read, or found to be gone. */
  lemma CollectOne(log: seq<Entry>, longer: seq<Entry>, from: nat, users: map<string, Container>, rest: set<string>, c: string,
                   item: Option<Container>)
    requires Collecting(log, from, users, rest) && users.Keys !! rest && c in rest && c in log[from].world.containers
    requires |longer| == |log| + 1 && log <= longer && Saw(longer[|log|], One(Containers, c))
    requires item == if c in longer[|log|].world.containers then Some(longer[|log|].world.containers[c]) else None
    ensures Collecting(longer, from, if item.Some? then users[c := item.value] else users, rest - {c})
  {
    var more := if item.Some? then users[c := item.value] else users;
    forall k | k !in rest - {c}
      ensures Collects(longer, from, more, k)
    {
      if k == c {
        assert if item.Some? then SawContainer(longer[|log|], k, more[k]) else MissedContainer(longer[|log|], k);
      } else {
        assert Collects(log, from, users, k);
        if k in users {
          var j :| from < j < |log| && SawContainer(log[j], k, users[k]);
          assert SawContainer(longer[j], k, more[k]);
        } else if k in log[from].world.containers {
          var j :| from < j < |log| && MissedContainer(log[j], k);
          assert MissedContainer(longer[j], k);
        }
      }
    }
  }

  /** Adds every network that a name or identifier prefix reserves. */
  method Reserve(reference: string, networks: map<string, Network>, ids: set<string>) returns (all: set<string>)
    ensures all == ids + set n | n in networks && Reserves(reference, n, networks[n].name)
  {
    all := ids;
    if reference == "" || "container:" <= reference {
      return;
    }
    var wanted := if reference == "default" then "bridge" else reference;
    var rest := networks.Keys;
    while rest != {}
      invariant rest <= networks.Keys
      invariant all == ids + set n | n in networks && n !in rest && Reserves(reference, n, networks[n].name)
    {
      var n :| n in rest;
      rest := rest - {n};
      if networks[n].name == Some(wanted) || wanted <= n {
        all := all + {n};
      }
    }
  }

  /** The networks one container uses, as far as the inventory lists them. */
  method NetworksOf(c: Container, networks: map<string, Network>) returns (r: Result<set<string>, Stop>)
    ensures r.Success? <==> Referable(c)
    ensures r.Failure? ==> r.error == Failed(5)
    ensures r.Success? ==> forall n :: n in networks ==> (n in r.value <==> Uses(c, n, networks[n].name))
  {
    if c.image == None || !ImageId(c.image.value) || c.endpoints == None || c.mode == None {
      return Failure(Failed(5));
    }
    var ids := Reserve(c.mode.value, networks, {});
    var endpoints := c.endpoints.value;
    var rest := endpoints.Keys;
    while rest != {}
      invariant rest <= endpoints.Keys
      invariant forall key :: key in endpoints && key !in rest ==> !endpoints[key].Malformed?
      invariant forall n :: n in networks ==>
                  (n in ids <==> Reserves(c.mode.value, n, networks[n].name) ||
                                 exists key :: key in endpoints && key !in rest &&
                                               Holds(key, endpoints[key], n, networks[n].name))
    {
      var key :| key in rest;
      rest := rest - {key};
      match endpoints[key]
      case Attached(id) => ids := ids + {id};
      case Unattached => ids := Reserve(key, networks, ids);
      case Malformed => return Failure(Failed(5));
    }
    return Success(ids);
  }

  class Inventory {
    const engine: Engine
    const policy: Settings
    /** The host's storage sample, and whether it stays fresh until the run ends. */
    const sample: Option<bool>
    const steady: bool
    var protectedImages: set<string>
    var containers: map<string, Container>
    var networks: map<string, Network>
    var images: map<string, Image>

    constructor (engine: Engine, policy: Settings, sample: Option<bool>, steady: bool)
      ensures this.engine == engine && this.policy == policy && this.sample == sample && this.steady == steady
      ensures protectedImages == policy.protection.imageIds
    {
      this.engine, this.policy, this.sample, this.steady := engine, policy, sample, steady;
      protectedImages := policy.protection.imageIds;
      containers, networks, images := map[], map[], map[];
    }

    /** The pressure sample, or nothing once it is too old. */
    method Pressure() returns (pressured: Option<bool>)
      ensures pressured == sample || pressured == None
      ensures steady ==> pressured == sample
    {
      var stale: bool := *;
      pressured := if stale && !steady then None else sample;
    }

    method InspectContainer(id: string) returns (r: Result<Option<Container>, Stop>)
      requires engine.Ready()
      modifies engine`log, engine.daemon`world, engine.daemon`cache
      ensures engine.Ready() && OneRead(old(engine.log), engine.log, One(Containers, id), r.Success?, engine.daemon.world)
      ensures engine.daemon.quiet ==> engine.daemon.world == old(engine.daemon.world)
      ensures r.Success? ==>
                r.value == if id in engine.daemon.world.containers then Some(engine.daemon.world.containers[id]) else None
    {
      var got := engine.Get(One(Containers, id));
      var answer := Answered(got, engine.daemon.world.containers, id);
      var misreported: bool := *;
      match answer
      case Success(item) => return if misreported then Failure(Failed(5)) else Success(Some(item));
      case Failure(stop) => return if stop == Refused(404) then Success(None) else Failure(stop);
    }

    method InspectNetwork(id: string) returns (r: Result<Option<Network>, Stop>)
      requires engine.Ready()
      modifies engine`log, engine.daemon`world, engine.daemon`cache
      ensures engine.Ready() && OneRead(old(engine.log), engine.log, One(Networks, id), r.Success?, engine.daemon.world)
      ensures engine.daemon.quiet ==> engine.daemon.world == old(engine.daemon.world)
      ensures r.Success? ==>
                r.value == if id in engine.daemon.world.networks then Some(engine.daemon.world.networks[id]) else None
    {
      var got := engine.Get(One(Networks, id));
      var answer := Answered(got, engine.daemon.world.networks, id);
      var misreported: bool := *;
      match answer
      case Success(item) => return if misreported then Failure(Failed(5)) else Success(Some(item));
      case Failure(stop) => return if stop == Refused(404) then Success(None) else Failure(stop);
    }

    method InspectImage(id: string) returns (r: Result<Option<Image>, Stop>)
      requires engine.Ready()
      modifies engine`log, engine.daemon`world, engine.daemon`cache
      ensures engine.Ready() && OneRead(old(engine.log), engine.log, One(Images, id), r.Success?, engine.daemon.world)
      ensures engine.daemon.quiet ==> engine.daemon.world == old(engine.daemon.world)
      ensures r.Success? ==>
                r.value == if id in engine.daemon.world.images then Some(engine.daemon.world.images[id]) else None
    {
      var got := engine.Get(One(Images, id));
      var answer := Answered(got, engine.daemon.world.images, id);
      var misreported: bool := *;
      match answer
      case Success(item) => return if misreported then Failure(Failed(5)) else Success(Some(item));
      case Failure(stop) => return if stop == Refused(404) then Success(None) else Failure(stop);
    }

    /** Reads one container of a list into the inventory, unless it vanished meanwhile. */
    method ReadOneListed(c: string, ghost from: nat, ghost rest: set<string>) returns (r: Result<(), Stop>)
      requires engine.Ready() && Collecting(engine.log, from, containers, rest) && containers.Keys !! rest
      requires c in rest && c in engine.log[from].world.containers
      modifies this`containers, engine`log, engine.daemon`world, engine.daemon`cache
      ensures engine.Ready() && old(engine.log) <= engine.log && |engine.log| == |old(engine.log)| + 1
      ensures r.Success? ==> Collecting(engine.log, from, containers, rest - {c})
      ensures engine.daemon.quiet ==> engine.daemon.world == old(engine.daemon.world)
      ensures var found := engine.daemon.world.containers;
              r.Success? ==>
                containers == if c in found then old(containers)[c := found[c]] else old(containers)
    {
      ghost var log := engine.log;
      var item :- InspectContainer(c);
      CollectOne(log, engine.log, from, containers, rest, c, item);
      if item.Some? {
        containers := containers[c := item.value];
      }
      return Success(());
    }

    /** Reads the containers of a list one by one; objects may vanish meanwhile. */
    method ReadListed(listed: set<string>) returns (r: Result<(), Stop>)
      requires engine.Ready() && engine.log != [] && Saw(engine.log[|engine.log| - 1], ListOf(Containers))
      requires listed == engine.log[|engine.log| - 1].world.containers.Keys
      modifies this`containers, engine`log, engine.daemon`world, engine.daemon`cache
      ensures engine.Ready() && old(engine.log) <= engine.log && |engine.log| <= |old(engine.log)| + |listed|
      ensures r.Success? ==> Collected(engine.log, |old(engine.log)| - 1, containers)
      ensures engine.daemon.quiet ==> engine.daemon.world == old(engine.daemon.world)
      ensures r.Success? && engine.daemon.quiet && listed == engine.daemon.world.containers.Keys ==>
                containers == engine.daemon.world.containers
    {
      var rest := listed;
      ghost var from := |engine.log| - 1;
      containers := map[];
      NothingCollected(engine.log, from);
      while rest != {}
        invariant engine.Ready() && old(engine.log) <= engine.log && rest <= listed
        invariant Collecting(engine.log, from, containers, rest) && containers.Keys !! rest
        invariant engine.daemon.quiet ==>
                    engine.daemon.world == old(engine.daemon.world) &&
                    containers == map c | c in engine.daemon.world.containers && c in listed && c !in rest ::
                                    engine.daemon.world.containers[c]
        invariant |engine.log| + |rest| == |old(engine.log)| + |listed|
      {
        var c :| c in rest;
        var _ :- ReadOneListed(c, from, rest);
        rest := rest - {c};
      }
      return Success(());
    }

    /** Reads all containers; the list may be unreadable. */
    method RefreshContainers() returns (r: Result<(), Stop>)
      requires engine.Ready()
      modifies this`containers, engine`log, engine.daemon`world, engine.daemon`cache
      ensures engine.Ready() && old(engine.log) <= engine.log
      ensures r.Success? ==> Collected(engine.log, |old(engine.log)|, containers)
      ensures engine.daemon.quiet ==> engine.daemon.world == old(engine.daemon.world)
      ensures r.Success? && engine.daemon.quiet ==> containers == engine.daemon.world.containers
      ensures engine.daemon.quiet ==> |engine.log| <= |old(engine.log)| + 1 + |engine.daemon.world.containers.Keys|
    {
      var _ :- engine.Get(ListOf(Containers));
      var unreadable: bool := *;
      if unreadable {
        return Failure(Failed(5));
      }
      r := ReadListed(engine.daemon.world.containers.Keys);
    }

    method RefreshNetworks() returns (r: Result<(), Stop>)
      requires engine.Ready()
      modifies this`networks, engine`log, engine.daemon`world, engine.daemon`cache
      ensures engine.Ready() && old(engine.log) <= engine.log
      ensures r.Success? ==> NamesKnown(engine.log, networks)
      ensures engine.daemon.quiet ==> engine.daemon.world == old(engine.daemon.world)
      ensures r.Success? && engine.daemon.quiet ==> networks == engine.daemon.world.networks
      ensures engine.daemon.quiet ==> |engine.log| <= |old(engine.log)| + 1 + |engine.daemon.world.networks.Keys|
    {
      var _ :- engine.Get(ListOf(Networks));
      var unreadable: bool := *;
      if unreadable {
        return Failure(Failed(5));
      }
      var rest := engine.daemon.world.networks.Keys;
      ghost var all := rest;
      networks := map[];
      while rest != {}
        invariant engine.Ready() && old(engine.log) <= engine.log && rest <= all
        invariant NamesKnown(engine.log, networks)
        invariant engine.daemon.quiet ==>
                    engine.daemon.world == old(engine.daemon.world) && all == engine.daemon.world.networks.Keys &&
                    networks == map n | n in engine.daemon.world.networks && n !in rest :: engine.daemon.world.networks[n]
        invariant |engine.log| + |rest| == |old(engine.log)| + 1 + |all|
      {
        var n :| n in rest;
        rest := rest - {n};
        ghost var log := engine.log;
        var item :- InspectNetwork(n);
        NamesKnownLater(log, engine.log, networks);
        if item.Some? {
          assert SawNetworkName(engine.log[|log|], n, item.value.name);
          networks := networks[n := item.value];
        }
      }
      return Success(());
    }

    method RefreshImages() returns (r: Result<(), Stop>)
      requires engine.Ready()
      modifies this`images, engine`log, engine.daemon`world, engine.daemon`cache
      ensures engine.Ready() && old(engine.log) <= engine.log
      ensures engine.daemon.quiet ==> engine.daemon.world == old(engine.daemon.world)
      ensures r.Success? && engine.daemon.quiet ==> images == engine.daemon.world.images
      ensures engine.daemon.quiet ==> |engine.log| <= |old(engine.log)| + 1 + |engine.daemon.world.images.Keys|
    {
      var _ :- engine.Get(ListOf(Images));
      var unreadable: bool := *;
      if unreadable {
        return Failure(Failed(5));
      }
      var rest := engine.daemon.world.images.Keys;
      ghost var all := rest;
      images := map[];
      while rest != {}
        invariant engine.Ready() && old(engine.log) <= engine.log && rest <= all
        invariant engine.daemon.quiet ==>
                    engine.daemon.world == old(engine.daemon.world) && all == engine.daemon.world.images.Keys &&
                    images == map i | i in engine.daemon.world.images && i !in rest :: engine.daemon.world.images[i]
        invariant |engine.log| + |rest| == |old(engine.log)| + 1 + |all|
      {
        var i :| i in rest;
        rest := rest - {i};
        var item :- InspectImage(i);
        if item.Some? {
          images := images[i := item.value];
        }
      }
      return Success(());
    }

    /** What one protected reference resolves to, if it does. */
    method ResolveReference(ref: string) returns (r: Result<(), Stop>)
      requires engine.Ready()
      modifies this`protectedImages, engine`log, engine.daemon`world, engine.daemon`cache
      ensures engine.Ready() && old(engine.log) <= engine.log && |engine.log| == |old(engine.log)| + 1
      ensures old(protectedImages) <= protectedImages
      ensures r.Success? ==> SawName(engine.log[|old(engine.log)|], ref, protectedImages)
      ensures var names := engine.daemon.world.names;
              engine.daemon.quiet ==>
                engine.daemon.world == old(engine.daemon.world) &&
                protectedImages == old(protectedImages) + if r.Success? && ref in names then {names[ref]} else {}
    {
      var got := engine.Get(ByName(ref));
      var answer := Answered(got, engine.daemon.world.names, ref);
      var misreported: bool := *;
      if answer.Failure? && answer.error != Refused(404) {
        return Failure(answer.error);
      }
      if answer.Success? {
        if misreported {
          return Failure(Failed(2));
        }
        protectedImages := protectedImages + {answer.value};
      }
      return Success(());
    }

    /** Adds the images the protected references stand for now. */
    method ResolveProtections() returns (r: Result<(), Stop>)
      requires engine.Ready()
      modifies this`protectedImages, engine`log, engine.daemon`world, engine.daemon`cache
      ensures engine.Ready() && old(engine.log) <= engine.log && old(protectedImages) <= protectedImages
      ensures r.Success? && policy.protection.imageIds <= old(protectedImages) ==>
                Resolved(engine.log, |old(engine.log)|, policy.protection, protectedImages)
      ensures engine.daemon.quiet ==> engine.daemon.world == old(engine.daemon.world)
      ensures engine.daemon.quiet ==>
                protectedImages <= old(protectedImages) + ProtectedImages(engine.daemon.world.names, policy.protection)
      ensures engine.daemon.quiet && r.Success? && policy.protection.imageIds <= old(protectedImages) ==>
                protectedImages == old(protectedImages) + ProtectedImages(engine.daemon.world.names, policy.protection)
      ensures |engine.log| <= |old(engine.log)| + |policy.protection.imageReferences|
    {
      var refs := policy.protection.imageReferences;
      for k := 0 to |refs|
        invariant engine.Ready() && old(engine.log) <= engine.log && old(protectedImages) <= protectedImages
        invariant engine.daemon.quiet ==> engine.daemon.world == old(engine.daemon.world)
        invariant engine.daemon.quiet ==>
                    protectedImages == old(protectedImages) +
                                       set r | r in refs[..k] && r in engine.daemon.world.names :: engine.daemon.world.names[r]
        invariant |engine.log| == |old(engine.log)| + k
        invariant forall i :: 0 <= i < k ==> SawName(engine.log[|old(engine.log)| + i], refs[i], protectedImages)
      {
        assert refs[..k + 1] == refs[..k] + [refs[k]];
        var _ :- ResolveReference(refs[k]);
      }
      assert refs[..|refs|] == refs;
      forall ref | ref in refs
        ensures ResolvesOne(engine.log, |old(engine.log)|, protectedImages, ref)
      {
        var i :| 0 <= i < |refs| && refs[i] == ref;
        assert SawName(engine.log[|old(engine.log)| + i], ref, protectedImages);
      }
      return Success(());
    }

    /** Images and networks the inventoried containers refer to, leaving some containers out. */
    method References(exclude: set<string>) returns (r: Result<(set<string>, set<string>), Stop>)
      ensures r.Success? ==> forall c :: c in containers && c !in exclude ==> Referable(containers[c])
      ensures (forall c :: c in containers && c !in exclude ==> Referable(containers[c])) ==> r.Success?
      ensures r.Failure? ==> r.error == Failed(5)
      ensures r.Success? ==> r.value.0 == ImageRefs(containers - exclude)
      ensures r.Success? ==> forall n :: n in networks ==>
                                         (n in r.value.1 <==> n in NetworkRefs(containers - exclude, networks))
    {
      var imageIds, networkIds: set<string> := {}, {};
      var left := containers - exclude;
      var rest := left.Keys;
      while rest != {}
        invariant rest <= left.Keys
        invariant forall c :: c in left && c !in rest ==> Referable(left[c])
        invariant imageIds == set c | c in left && c !in rest && left[c].image.Some? :: left[c].image.value
        invariant forall n :: n in networks ==>
                    (n in networkIds <==> exists c :: c in left && c !in rest && Uses(left[c], n, networks[n].name))
      {
        var c :| c in rest;
        rest := rest - {c};
        var used := NetworksOf(left[c], networks);
        if used.Failure? {
          assert left[c] == containers[c];
          return Failure(used.error);
        }
        imageIds := imageIds + {left[c].image.value};
        networkIds := networkIds + used.value;
      }
      assert forall c :: c in containers && c !in exclude ==> c in left;
      return Success((imageIds, networkIds));
    }

    /** The run goes on from here on a daemon that others leave alone. */
    ghost predicate Loaded()
      reads this, engine, engine.daemon
    {
      engine.daemon.quiet ==>
        containers == engine.daemon.world.containers && networks == engine.daemon.world.networks &&
        images == engine.daemon.world.images &&
        protectedImages == ProtectedImages(engine.daemon.world.names, policy.protection)
    }

    /** No image is protected beyond the policy's own identifiers and references. */
    ghost predicate Justified()
      reads this, engine, engine.daemon
    {
      policy.protection.imageIds <= protectedImages &&
      (engine.daemon.quiet ==> protectedImages <= ProtectedImages(engine.daemon.world.names, policy.protection))
    }

    method RefreshAll() returns (r: Result<(), Stop>)
      requires engine.Ready()
      modifies this`containers, this`networks, this`images, engine`log, engine.daemon`world, engine.daemon`cache
      ensures engine.Ready() && old(engine.log) <= engine.log
      ensures engine.daemon.quiet ==> engine.daemon.world == old(engine.daemon.world)
      ensures r.Success? ==> NamesKnown(engine.log, networks)
      ensures r.Success? && engine.daemon.quiet ==>
                containers == engine.daemon.world.containers && networks == engine.daemon.world.networks &&
                images == engine.daemon.world.images
      ensures engine.daemon.quiet ==>
                |engine.log| <= |old(engine.log)| + 3 + |engine.daemon.world.containers.Keys| +
                                |engine.daemon.world.networks.Keys| + |engine.daemon.world.images.Keys|
    {
      var _ :- RefreshContainers();
      var _ :- RefreshNetworks();
      ghost var log := engine.log;
      var _ :- RefreshImages();
      NamesKnownLater(log, engine.log, networks);
      return Success(());
    }

    method Load() returns (r: Result<(), Stop>)
      requires engine.Ready() && Justified()
      modifies this, engine`log, engine.daemon`world, engine.daemon`cache
      ensures engine.Ready() && Justified() && old(engine.log) <= engine.log
      ensures engine.daemon.quiet ==> engine.daemon.world == old(engine.daemon.world)
      ensures r.Success? ==> Loaded() && NamesKnown(engine.log, networks)
      ensures engine.daemon.quiet ==>
                |engine.log| <= |old(engine.log)| + 3 + |engine.daemon.world.containers.Keys| +
                                |engine.daemon.world.networks.Keys| + |engine.daemon.world.images.Keys| +
                                |policy.protection.imageReferences|
    {
      var _ :- RefreshAll();
      ghost var log := engine.log;
      var _ :- References({});
      var _ :- ResolveProtections();
      NamesKnownLater(log, engine.log, networks);
      return Success(());
    }
  }
}
