/** Storage pressure: what the host measures and what the cleanup process makes of it. */
module Storage {
  import opened Wrappers
  import opened Quantities
  import opened Policy

  datatype Role = DockerData | ContainerdData | OtherData

  /** Block counts of one mounted filesystem, in fragments. */
  datatype Stat = Stat(device: nat, blocks: int, free: int, available: int, fragment: int)

  /** What a path leads to once links are resolved. */
  datatype Place = Place(path: string, directory: bool, stat: Stat)

  type Host = map<string, Place>

  datatype Sources = Sources(docker: string, containerd: Option<string>, other: seq<string>)

  datatype Filesystem = Filesystem(device: string, paths: seq<string>, roles: seq<Role>, total: int, used: int, available: int)

  datatype GateError = GateError(code: int)

  type Path = (Role, string)

  predicate Absolute(path: string) {
    path != "" && path[0] == '/'
  }

  /** All paths with their roles, in the order they are measured. */
  function PathsOf(sources: Sources): (paths: seq<Path>) {
    [(DockerData, sources.docker)] +
    (if sources.containerd.Some? then [(ContainerdData, sources.containerd.value)] else []) +
    seq(|sources.other|, k requires 0 <= k < |sources.other| => (OtherData, sources.other[k]))
  }

  predicate Reachable(paths: seq<Path>, host: Host) {
    forall k :: 0 <= k < |paths| ==> Absolute(paths[k].1) && paths[k].1 in host && host[paths[k].1].directory
  }

  /** The same path is accepted by every check before the paths are opened. */
  predicate Configured(sources: Sources, host: Host, containerdStore: bool, overlay2: bool, root: Option<string>) {
    |sources.other| <= 30 && (containerdStore || overlay2) && (containerdStore ==> sources.containerd.Some?) &&
    root.Some? && Absolute(root.value) && root.value in host && sources.docker in host &&
    host[sources.docker].path == host[root.value].path
  }

  function DeviceOf(host: Host, path: string): (device: string)
    requires path in host
  {
    Digits(host[path].stat.device)
  }

  /** Devices in the order in which they first appear. */
  function Devices(paths: seq<Path>, host: Host): (devices: seq<string>)
    requires Reachable(paths, host)
    ensures |devices| <= |paths|
    ensures forall j, k :: 0 <= j < k < |devices| ==> devices[j] != devices[k]
    ensures forall d :: d in devices <==> exists k :: 0 <= k < |paths| && DeviceOf(host, paths[k].1) == d
  {
    if paths == [] then []
    else
      var n := |paths| - 1;
      var before := Devices(paths[..n], host);
      assert forall k :: 0 <= k < n ==> paths[..n][k] == paths[k];
      var last := DeviceOf(host, paths[n].1);
      if last in before then before else before + [last]
  }

  /** What is measured for a device: the counts seen through the first path on it. */
  function FirstOn(paths: seq<Path>, host: Host, device: string): (stat: Option<Stat>)
    requires Reachable(paths, host)
  {
    if paths == [] then None
    else
      var n := |paths| - 1;
      var before := FirstOn(paths[..n], host, device);
      if before.Some? then before
      else if DeviceOf(host, paths[n].1) == device then Some(host[paths[n].1].stat)
      else None
  }

  lemma {:induction false} FirstIsOnDevice(paths: seq<Path>, host: Host, device: string)
    requires Reachable(paths, host)
    ensures var stat := FirstOn(paths, host, device);
            (stat.Some? ==> exists k :: 0 <= k < |paths| && host[paths[k].1].stat == stat.value) &&
            (stat.Some? <==> device in Devices(paths, host))
  {
    if paths != [] {
      var n := |paths| - 1;
      FirstIsOnDevice(paths[..n], host, device);
      assert forall k :: 0 <= k < n ==> paths[..n][k] == paths[k];
    }
  }

  predicate HasRole(paths: seq<Path>, host: Host, device: string, role: Role)
    requires Reachable(paths, host)
  {
    exists k :: 0 <= k < |paths| && paths[k].0 == role && DeviceOf(host, paths[k].1) == device
  }

  predicate HasPath(paths: seq<Path>, host: Host, device: string, path: string)
    requires Reachable(paths, host)
  {
    exists k :: 0 <= k < |paths| && host[paths[k].1].path == path && DeviceOf(host, paths[k].1) == device
  }

  predicate Counted(fs: Filesystem, stat: Option<Stat>) {
    stat.Some? && fs.total == stat.value.blocks * stat.value.fragment &&
    fs.used == (stat.value.blocks - stat.value.free) * stat.value.fragment &&
    fs.available == stat.value.available * stat.value.fragment
  }

  /** The measurement of a list of paths. */
  ghost predicate Measured(found: seq<Filesystem>, paths: seq<Path>, host: Host)
    requires Reachable(paths, host)
  {
    |found| == |Devices(paths, host)| &&
    forall k :: 0 <= k < |found| ==> MeasuredOne(found[k], Devices(paths, host)[k], paths, host)
  }

  ghost predicate MeasuredOne(fs: Filesystem, device: string, paths: seq<Path>, host: Host)
    requires Reachable(paths, host)
  {
    fs.device == device && Counted(fs, FirstOn(paths, host, device)) &&
    (forall role :: role in fs.roles <==> HasRole(paths, host, device, role)) &&
    (forall path :: path in fs.paths <==> HasPath(paths, host, device, path))
  }

  function Find(found: seq<Filesystem>, device: string): (k: nat)
    ensures k <= |found| && (k < |found| ==> found[k].device == device)
    ensures k == |found| ==> forall j :: 0 <= j < |found| ==> found[j].device != device
  {
    if found == [] || found[0].device == device then 0
    else
      var k := 1 + Find(found[1..], device);
      assert forall j :: 1 <= j < |found| ==> found[j] == found[1..][j - 1];
      k
  }

  /** Adds a path and its role to the entry of its device, starting the entry if there is none. */
  function Add(found: seq<Filesystem>, role: Role, place: Place): (more: seq<Filesystem>) {
    var device, stat := Digits(place.stat.device), place.stat;
    var k := Find(found, device);
    var all := if k < |found| then found
               else found + [Filesystem(device, [], [], stat.blocks * stat.fragment,
                                        (stat.blocks - stat.free) * stat.fragment, stat.available * stat.fragment)];
    var fs := all[k];
    all[k := fs.(paths := if place.path in fs.paths then fs.paths else fs.paths + [place.path],
                 roles := if role in fs.roles then fs.roles else fs.roles + [role])]
  }

  lemma RolesOneMore(paths: seq<Path>, path: Path, host: Host, device: string)
    requires Reachable(paths, host) && Reachable(paths + [path], host) && path.1 in host
    ensures forall role :: HasRole(paths + [path], host, device, role) <==>
                           HasRole(paths, host, device, role) || (path.0 == role && DeviceOf(host, path.1) == device)
    ensures forall p :: HasPath(paths + [path], host, device, p) <==>
                        HasPath(paths, host, device, p) || (host[path.1].path == p && DeviceOf(host, path.1) == device)
  {
    var all := paths + [path];
    assert all[|paths|] == path;
    forall role | HasRole(paths, host, device, role)
      ensures HasRole(all, host, device, role)
    {
      var k :| 0 <= k < |paths| && paths[k].0 == role && DeviceOf(host, paths[k].1) == device;
      assert all[k] == paths[k];
    }
    forall p | HasPath(paths, host, device, p)
      ensures HasPath(all, host, device, p)
    {
      var k :| 0 <= k < |paths| && host[paths[k].1].path == p && DeviceOf(host, paths[k].1) == device;
      assert all[k] == paths[k];
    }
  }

  lemma OtherDevice(fs: Filesystem, device: string, paths: seq<Path>, path: Path, host: Host)
    requires Reachable(paths, host) && Reachable(paths + [path], host) && path.1 in host
    requires MeasuredOne(fs, device, paths, host) && DeviceOf(host, path.1) != device
    ensures MeasuredOne(fs, device, paths + [path], host)
  {
    assert (paths + [path])[..|paths|] == paths;
    RolesOneMore(paths, path, host, device);
  }

  lemma AddedOnce<T>(before: seq<T>, x: T, after: seq<T>)
    requires after == if x in before then before else before + [x]
    ensures forall y :: y in after <==> y in before || y == x
  {
  }

  /** A later path on the same device is not what its counts are taken from. */
  lemma FirstStays(paths: seq<Path>, path: Path, host: Host, device: string)
    requires Reachable(paths, host) && Reachable(paths + [path], host)
    requires FirstOn(paths, host, device).Some?
    ensures FirstOn(paths + [path], host, device) == FirstOn(paths, host, device)
  {
    assert (paths + [path])[..|paths|] == paths;
  }

  lemma SameDevice(fs: Filesystem, more: Filesystem, device: string, paths: seq<Path>, path: Path, host: Host)
    requires Reachable(paths, host) && Reachable(paths + [path], host) && path.1 in host
    requires MeasuredOne(fs, device, paths, host) && DeviceOf(host, path.1) == device
    requires more == fs.(paths := more.paths, roles := more.roles)
    requires more.roles == (if path.0 in fs.roles then fs.roles else fs.roles + [path.0])
    requires var p := host[path.1].path; more.paths == if p in fs.paths then fs.paths else fs.paths + [p]
    ensures MeasuredOne(more, device, paths + [path], host)
  {
    FirstStays(paths, path, host, device);
    RolesOneMore(paths, path, host, device);
    AddedOnce(fs.roles, path.0, more.roles);
    AddedOnce(fs.paths, host[path.1].path, more.paths);
  }

  /** A known device: the entry gains a role and a path, and the counts stay. */
  lemma KnownDevice(found: seq<Filesystem>, paths: seq<Path>, path: Path, host: Host, k: nat)
    requires Reachable(paths, host) && Reachable(paths + [path], host) && path.1 in host && Measured(found, paths, host)
    requires k < |found|
    ensures MeasuredOne(Add(found, path.0, host[path.1])[k], Devices(paths, host)[k], paths + [path], host)
  {
    var device := Devices(paths, host)[k];
    var more := Add(found, path.0, host[path.1])[k];
    assert MeasuredOne(found[k], device, paths, host);
    if DeviceOf(host, path.1) == device {
      SameDevice(found[k], more, device, paths, path, host);
    } else {
      OtherDevice(found[k], device, paths, path, host);
    }
  }

  lemma DevicesOneMore(paths: seq<Path>, path: Path, host: Host)
    requires Reachable(paths, host) && Reachable(paths + [path], host) && path.1 in host
    ensures var devices, device := Devices(paths, host), DeviceOf(host, path.1);
            Devices(paths + [path], host) == if device in devices then devices else devices + [device]
  {
    assert (paths + [path])[..|paths|] == paths;
  }

  lemma MeasuredIsFound(found: seq<Filesystem>, paths: seq<Path>, host: Host, device: string)
    requires Reachable(paths, host) && Measured(found, paths, host)
    ensures Find(found, device) < |found| <==> device in Devices(paths, host)
  {
    var devices := Devices(paths, host);
    forall k | 0 <= k < |found|
      ensures found[k].device == devices[k]
    {
      assert MeasuredOne(found[k], devices[k], paths, host);
    }
  }

  lemma AddedEntry(found: seq<Filesystem>, role: Role, place: Place)
    ensures var more, device, stat := Add(found, role, place), Digits(place.stat.device), place.stat;
            if Find(found, device) < |found| then |more| == |found|
            else |more| == |found| + 1 && var fs := more[|found|];
                 fs.device == device && Counted(fs, Some(stat)) && fs.roles == [role] && fs.paths == [place.path]
  {
  }

  /** The counts taken through the first path on a device stay, and roles and paths accumulate. */
  lemma AddMeasures(found: seq<Filesystem>, paths: seq<Path>, path: Path, host: Host)
    requires Reachable(paths, host) && Reachable(paths + [path], host) && path.1 in host && Measured(found, paths, host)
    ensures Measured(Add(found, path.0, host[path.1]), paths + [path], host)
  {
    var more, devices := Add(found, path.0, host[path.1]), Devices(paths + [path], host);
    DevicesOneMore(paths, path, host);
    MeasuredIsFound(found, paths, host, DeviceOf(host, path.1));
    AddedEntry(found, path.0, host[path.1]);
    if |more| > |found| {
      FreshDevice(more[|found|], paths, path, host);
    }
    forall k | 0 <= k < |more|
      ensures MeasuredOne(more[k], devices[k], paths + [path], host)
    {
      if k < |found| {
        KnownDevice(found, paths, path, host, k);
      }
    }
  }

  lemma FreshDevice(fs: Filesystem, paths: seq<Path>, path: Path, host: Host)
    requires Reachable(paths, host) && Reachable(paths + [path], host) && path.1 in host
    requires var device := DeviceOf(host, path.1);
             device !in Devices(paths, host) && fs.device == device && Counted(fs, Some(host[path.1].stat)) &&
             fs.roles == [path.0] && fs.paths == [host[path.1].path]
    ensures MeasuredOne(fs, fs.device, paths + [path], host)
  {
    var all := paths + [path];
    assert all[..|paths|] == paths && all[|paths|] == path;
    FirstIsOnDevice(paths, host, fs.device);
    assert forall k :: 0 <= k < |paths| ==> DeviceOf(host, paths[k].1) != fs.device;
    RolesOneMore(paths, path, host, fs.device);
  }

  method MeasurePaths(paths: seq<Path>, host: Host) returns (r: Result<seq<Filesystem>, GateError>)
    ensures r.Success? <==> Reachable(paths, host)
    ensures r.Failure? ==> r.error == GateError(2)
    ensures r.Success? ==> Measured(r.value, paths, host)
  {
    var found: seq<Filesystem> := [];
    for k := 0 to |paths|
      invariant Reachable(paths[..k], host) && Measured(found, paths[..k], host)
    {
      var (role, path) := paths[k];
      if !Absolute(path) || path !in host || !host[path].directory {
        return Failure(GateError(2));
      }
      ghost var done := paths[..k];
      assert paths[..k + 1] == done + [paths[k]];
      AddMeasures(found, done, paths[k], host);
      found := Add(found, role, host[path]);
    }
    assert paths[..|paths|] == paths;
    return Success(found);
  }

  /** Measures the filesystems under all paths; one path that cannot be opened spoils the sample. */
  method Measure(sources: Sources, host: Host, containerdStore: bool, overlay2: bool, root: Option<string>)
    returns (r: Result<seq<Filesystem>, GateError>)
    ensures r.Success? <==> Configured(sources, host, containerdStore, overlay2, root) && Reachable(PathsOf(sources), host)
    ensures r.Failure? ==> r.error == GateError(2)
    ensures r.Success? ==> Measured(r.value, PathsOf(sources), host)
  {
    if !Configured(sources, host, containerdStore, overlay2, root) {
      return Failure(GateError(2));
    }
    r := MeasurePaths(PathsOf(sources), host);
  }

  // ---------------------------------------------------------------------------------------------------
  // What the cleanup process makes of a sample

  /** A filesystem entry as received; a field that is missing or of the wrong type is nothing. */
  datatype Entry = Entry(device: Option<string>, paths: Option<seq<Option<string>>>, roles: Option<seq<Option<Role>>>,
                         total: Option<int>, used: Option<int>, available: Option<int>)

  datatype Sample = Sample(schema: Option<int>, source: Option<string>, daemonId: Option<string>, runId: Option<string>,
                           complete: bool, sampledAt: Option<int>, filesystems: Option<seq<Option<Entry>>>)

  datatype Pressure = Pressure(usedPercent: int, criticalPercent: int, reserveBytes: Option<int>, maxSampleAge: int)

  datatype Verdict = Unknown | Known(pressured: bool, critical: bool)

  const MAX_INT64 := 0x7FFF_FFFF_FFFF_FFFF

  predicate Trusted(sample: Sample, daemonId: string, runId: string) {
    sample.schema == Some(1) && sample.source == Some("linux-host") && sample.daemonId == Some(daemonId) &&
    sample.runId == Some(runId) && sample.complete
  }

  predicate Timely(sample: Sample, settings: Pressure, now: int) {
    sample.sampledAt.Some? && -5 * SECOND <= now - sample.sampledAt.value <= settings.maxSampleAge * SECOND
  }

  predicate Count(n: Option<int>) {
    n.Some? && 0 <= n.value <= MAX_INT64
  }

  predicate ReadableIdentity(e: Entry) {
    e.device.Some? && e.device.value != "" && Decimal(e.device.value) && |e.device.value| <= 32 &&
    e.paths.Some? && e.paths.value != [] &&
    (forall k :: 0 <= k < |e.paths.value| ==> e.paths.value[k].Some? && Absolute(e.paths.value[k].value)) &&
    e.roles.Some? && e.roles.value != [] && forall k :: 0 <= k < |e.roles.value| ==> e.roles.value[k].Some?
  }

  predicate ReadableCounts(e: Entry) {
    Count(e.total) && Count(e.used) && Count(e.available) && e.total.value != 0 &&
    e.used.value + e.available.value <= e.total.value
  }

  predicate Readable(e: Option<Entry>) {
    e.Some? && ReadableIdentity(e.value) && ReadableCounts(e.value)
  }

  predicate BelowReserve(e: Entry, settings: Pressure)
    requires ReadableCounts(e)
  {
    settings.reserveBytes.Some? && e.available.value < settings.reserveBytes.value
  }

  /** The filesystem is filled to this percentage, or below the reserve. */
  predicate Full(e: Entry, percent: int, settings: Pressure)
    requires ReadableCounts(e)
  {
    e.used.value * 100 >= percent * e.total.value || BelowReserve(e, settings)
  }

  predicate AllReadable(entries: seq<Option<Entry>>) {
    forall k :: 0 <= k < |entries| ==> Readable(entries[k])
  }

  predicate DistinctDevices(entries: seq<Option<Entry>>)
    requires AllReadable(entries)
  {
    forall j, k :: 0 <= j < k < |entries| ==> entries[j].value.device != entries[k].value.device
  }

  predicate SomeFull(entries: seq<Option<Entry>>, percent: int, settings: Pressure)
    requires AllReadable(entries)
  {
    exists k :: 0 <= k < |entries| && Full(entries[k].value, percent, settings)
  }

  predicate SomeDocker(entries: seq<Option<Entry>>)
    requires AllReadable(entries)
  {
    exists k :: 0 <= k < |entries| && Some(DockerData) in entries[k].value.roles.value
  }

  /** The sample says something. */
  predicate Conclusive(sample: Sample, settings: Pressure, daemonId: string, runId: string, now: int) {
    Trusted(sample, daemonId, runId) && Timely(sample, settings, now) && sample.filesystems.Some? &&
    1 <= |sample.filesystems.value| <= 32 && AllReadable(sample.filesystems.value) &&
    DistinctDevices(sample.filesystems.value) && SomeDocker(sample.filesystems.value)
  }

  lemma OneMoreEntry(entries: seq<Option<Entry>>, e: Option<Entry>, percent: int, settings: Pressure)
    requires AllReadable(entries) && Readable(e)
    ensures AllReadable(entries + [e])
    ensures SomeFull(entries + [e], percent, settings) ==
            (SomeFull(entries, percent, settings) || Full(e.value, percent, settings))
    ensures SomeDocker(entries + [e]) == (SomeDocker(entries) || Some(DockerData) in e.value.roles.value)
  {
    var all := entries + [e];
    assert all[|entries|] == e;
    if k :| 0 <= k < |entries| && Full(entries[k].value, percent, settings) {
      assert Full(all[k].value, percent, settings);
    }
    if k :| 0 <= k < |entries| && Some(DockerData) in entries[k].value.roles.value {
      assert all[k] == entries[k];
    }
  }

  /** One pass over the entries; the flags are those of some filesystem, and critical implies pressured. */
  method Evaluate(observation: Option<Sample>, settings: Pressure, daemonId: string, runId: string, now: int)
    returns (v: Verdict)
    ensures v.Known? <==> observation.Some? && Conclusive(observation.value, settings, daemonId, runId, now)
    ensures v.Known? ==> v.pressured == SomeFull(observation.value.filesystems.value, settings.usedPercent, settings)
    ensures v.Known? ==> v.critical == SomeFull(observation.value.filesystems.value, settings.criticalPercent, settings)
    ensures v.Known? && settings.usedPercent < settings.criticalPercent ==> (v.critical ==> v.pressured)
  {
    if observation == None || !Trusted(observation.value, daemonId, runId) || !Timely(observation.value, settings, now) {
      return Unknown;
    }
    var filesystems := observation.value.filesystems;
    if filesystems == None || !(1 <= |filesystems.value| <= 32) {
      return Unknown;
    }
    var entries := filesystems.value;
    var devices: set<string>, docker, pressured, critical := {}, false, false, false;
    for k := 0 to |entries|
      invariant Tallied(entries[..k], settings, devices, docker, pressured, critical)
    {
      if entries[k] == None {
        return Unknown;
      }
      var e := entries[k].value;
      if !ReadableIdentity(e) || e.device.value in devices {
        return Unknown;
      }
      if !ReadableCounts(e) {
        return Unknown;
      }
      assert entries[..k + 1] == entries[..k] + [entries[k]];
      TallyOneMore(entries[..k], entries[k], settings, devices, docker, pressured, critical);
      devices := devices + {e.device.value};
      docker := docker || Some(DockerData) in e.roles.value;
      pressured := pressured || Full(e, settings.usedPercent, settings);
      critical := critical || Full(e, settings.criticalPercent, settings);
    }
    assert entries[..|entries|] == entries;
    return if docker then Known(pressured, critical) else Unknown;
  }

  /** The flags gathered so far are those of the entries seen so far. */
  ghost predicate Tallied(entries: seq<Option<Entry>>, settings: Pressure, devices: set<string>, docker: bool,
                          pressured: bool, critical: bool)
  {
    AllReadable(entries) && DistinctDevices(entries) &&
    (forall d :: d in devices <==> exists j :: 0 <= j < |entries| && entries[j].value.device == Some(d)) &&
    docker == SomeDocker(entries) && pressured == SomeFull(entries, settings.usedPercent, settings) &&
    critical == SomeFull(entries, settings.criticalPercent, settings) &&
    (settings.usedPercent < settings.criticalPercent ==> (critical ==> pressured))
  }

  lemma TallyOneMore(entries: seq<Option<Entry>>, e: Option<Entry>, settings: Pressure, devices: set<string>, docker: bool,
                     pressured: bool, critical: bool)
    requires Tallied(entries, settings, devices, docker, pressured, critical)
    requires Readable(e) && e.value.device.value !in devices
    ensures Tallied(entries + [e], settings, devices + {e.value.device.value},
                    docker || Some(DockerData) in e.value.roles.value,
                    pressured || Full(e.value, settings.usedPercent, settings),
                    critical || Full(e.value, settings.criticalPercent, settings))
  {
    OneMoreEntry(entries, e, settings.usedPercent, settings);
    OneMoreEntry(entries, e, settings.criticalPercent, settings);
    if settings.usedPercent < settings.criticalPercent {
      CriticalIsPressured(e.value, settings);
    }
    var all := entries + [e];
    assert all[|entries|] == e && all[..|entries|] == entries;
    forall d
      ensures d in devices + {e.value.device.value} <==> exists j :: 0 <= j < |all| && all[j].value.device == Some(d)
    {
      if j :| 0 <= j < |entries| && entries[j].value.device == Some(d) {
        assert all[j] == entries[j];
      }
    }
  }

  lemma CriticalIsPressured(e: Entry, settings: Pressure)
    requires ReadableCounts(e) && settings.usedPercent < settings.criticalPercent
    ensures Full(e, settings.criticalPercent, settings) ==> Full(e, settings.usedPercent, settings)
  {
    assert settings.usedPercent * e.total.value <= settings.criticalPercent * e.total.value;
  }

  // ---------------------------------------------------------------------------------------------------
  // The producer meets the consumer

  /** Filesystem counts as a kernel reports them, and paths resolved to absolute ones. */
  predicate Sane(host: Host) {
    forall p :: p in host ==>
      Absolute(host[p].path) && host[p].stat.device < Power(10, 20) &&
      var s := host[p].stat;
      0 < s.blocks && 0 < s.fragment && 0 <= s.free <= s.blocks && 0 <= s.available <= s.free && s.blocks * s.fragment <= MAX_INT64
  }

  function Sent(fs: Filesystem): (e: Option<Entry>) {
    Some(Entry(Some(fs.device), Some(seq(|fs.paths|, k requires 0 <= k < |fs.paths| => Some(fs.paths[k]))),
               Some(seq(|fs.roles|, k requires 0 <= k < |fs.roles| => Some(fs.roles[k]))),
               Some(fs.total), Some(fs.used), Some(fs.available)))
  }

  function SentAll(found: seq<Filesystem>): (entries: seq<Option<Entry>>) {
    seq(|found|, k requires 0 <= k < |found| => Sent(found[k]))
  }

  lemma CountsAreReadable(fs: Filesystem, s: Stat)
    requires 0 < s.blocks && 0 < s.fragment && 0 <= s.free <= s.blocks && 0 <= s.available <= s.free
    requires s.blocks * s.fragment <= MAX_INT64 && Counted(fs, Some(s))
    ensures ReadableCounts(Sent(fs).value)
  {
    assert (s.blocks - s.free) * s.fragment + s.free * s.fragment == s.blocks * s.fragment;
    assert 0 <= s.available * s.fragment <= s.free * s.fragment;
    assert 0 <= (s.blocks - s.free) * s.fragment;
    assert s.blocks * s.fragment >= 1 * s.fragment;
  }

  lemma MeasuredIsReadable(fs: Filesystem, device: string, paths: seq<Path>, host: Host)
    requires Reachable(paths, host) && Sane(host) && MeasuredOne(fs, device, paths, host)
    ensures Readable(Sent(fs))
  {
    FirstIsOnDevice(paths, host, device);
    var k :| 0 <= k < |paths| && host[paths[k].1].stat == FirstOn(paths, host, device).value;
    CountsAreReadable(fs, host[paths[k].1].stat);
    var j :| 0 <= j < |paths| && DeviceOf(host, paths[j].1) == device;
    assert HasRole(paths, host, device, paths[j].0) && HasPath(paths, host, device, host[paths[j].1].path);
    assert paths[j].0 in fs.roles && host[paths[j].1].path in fs.paths;
    NumberOfDigits(host[paths[j].1].stat.device);
    DigitsAreShort(host[paths[j].1].stat.device, 20);
    forall i | 0 <= i < |fs.paths|
      ensures Absolute(fs.paths[i])
    {
      assert fs.paths[i] in fs.paths;
    }
  }

  lemma MeasuredAreReadable(found: seq<Filesystem>, paths: seq<Path>, host: Host)
    requires Sane(host) && Reachable(paths, host) && Measured(found, paths, host)
    ensures AllReadable(SentAll(found))
  {
    forall k | 0 <= k < |found|
      ensures Readable(SentAll(found)[k])
    {
      MeasuredIsReadable(found[k], Devices(paths, host)[k], paths, host);
    }
  }

  /** A measurement of configured sources, sent with the right identities and read in time, is always conclusive. */
  lemma MeasuredIsConclusive(found: seq<Filesystem>, sources: Sources, host: Host, settings: Pressure, daemonId: string,
                             runId: string, taken: int, now: int)
    requires |sources.other| <= 30 && Sane(host) && Reachable(PathsOf(sources), host)
    requires Measured(found, PathsOf(sources), host)
    requires -5 * SECOND <= now - taken <= settings.maxSampleAge * SECOND
    ensures Conclusive(
              Sample(Some(1), Some("linux-host"), Some(daemonId), Some(runId), true, Some(taken), Some(SentAll(found))),
              settings, daemonId, runId, now)
  {
    var paths := PathsOf(sources);
    var devices := Devices(paths, host);
    MeasuredAreReadable(found, paths, host);
    assert |paths| <= 32;
    assert DistinctDevices(SentAll(found)) by {
      forall j, k | 0 <= j < k < |found|
        ensures SentAll(found)[j].value.device != SentAll(found)[k].value.device
      {
        assert MeasuredOne(found[j], devices[j], paths, host) && MeasuredOne(found[k], devices[k], paths, host);
      }
    }
    DockerIsMeasured(found, sources, host);
  }

  lemma DockerIsMeasured(found: seq<Filesystem>, sources: Sources, host: Host)
    requires Reachable(PathsOf(sources), host) && Measured(found, PathsOf(sources), host) && AllReadable(SentAll(found))
    ensures found != [] && SomeDocker(SentAll(found))
  {
    var paths := PathsOf(sources);
    var device := DeviceOf(host, paths[0].1);
    assert HasRole(paths, host, device, DockerData);
    var devices := Devices(paths, host);
    assert device in devices;
    var k :| 0 <= k < |devices| && devices[k] == device;
    assert MeasuredOne(found[k], device, paths, host);
    var i :| 0 <= i < |found[k].roles| && found[k].roles[i] == DockerData;
    assert SentAll(found)[k].value.roles.value[i] == Some(DockerData);
  }

  lemma {:induction false} FirstOfTwo(a: seq<Path>, b: seq<Path>, host: Host, device: string)
    requires Reachable(a, host) && Reachable(b, host) && Reachable(a + b, host)
    ensures FirstOn(a + b, host, device) ==
            if FirstOn(a, host, device).Some? then FirstOn(a, host, device) else FirstOn(b, host, device)
    decreases |b|
  {
    if b == [] {
      assert a + b == a;
    } else {
      var n := |b| - 1;
      assert (a + b)[..|a| + n] == a + b[..n] && (a + b)[|a| + n] == b[n];
      assert forall k :: 0 <= k < |a| ==> (a + b[..n])[k] == (a + b)[k];
      FirstOfTwo(a, b[..n], host, device);
    }
  }

  function Inserted(paths: seq<Path>, k: nat, path: Path): (all: seq<Path>)
    requires k <= |paths|
  {
    (paths[..k] + [path]) + paths[k..]
  }

  /** A path on a device that an earlier path is on, or that shows what the first path on its device shows. */
  predicate AddsNoCounts(paths: seq<Path>, k: nat, path: Path, host: Host)
    requires k <= |paths| && path.1 in host && Reachable(paths, host) && Reachable(paths[..k], host)
  {
    var device := DeviceOf(host, path.1);
    device in Devices(paths[..k], host) || FirstOn(paths, host, device) == Some(host[path.1].stat)
  }

  lemma FirstAfterInsertion(paths: seq<Path>, k: nat, path: Path, host: Host, device: string)
    requires k <= |paths| && path.1 in host && Reachable(paths, host) && Reachable(Inserted(paths, k, path), host)
    requires Reachable(paths[..k], host) && AddsNoCounts(paths, k, path, host)
    ensures FirstOn(Inserted(paths, k, path), host, device) == FirstOn(paths, host, device)
  {
    var all, before, after := Inserted(paths, k, path), paths[..k], paths[k..];
    assert all[k] == path && paths == before + after;
    assert [path][..0] == [];
    FirstIsOnDevice(before, host, device);
    FirstOfTwo(before, after, host, device);
    FirstOfTwo(before, [path], host, device);
    FirstOfTwo(before + [path], after, host, device);
  }

  lemma SameCountsEquallyFull(fs: Filesystem, other: Filesystem, stat: Option<Stat>, percent: int, settings: Pressure)
    requires Counted(fs, stat) && Counted(other, stat) && ReadableCounts(Sent(fs).value) && ReadableCounts(Sent(other).value)
    ensures Full(Sent(fs).value, percent, settings) == Full(Sent(other).value, percent, settings)
  {
    assert fs.total == other.total && fs.used == other.used && fs.available == other.available;
  }

  lemma SameCountsSameFlag(found: seq<Filesystem>, more: seq<Filesystem>, paths: seq<Path>, all: seq<Path>, host: Host,
                           percent: int, settings: Pressure)
    requires Sane(host) && Reachable(paths, host) && Reachable(all, host)
    requires Measured(found, paths, host) && Measured(more, all, host)
    requires forall device :: FirstOn(all, host, device) == FirstOn(paths, host, device)
    ensures AllReadable(SentAll(found)) && AllReadable(SentAll(more))
    ensures SomeFull(SentAll(found), percent, settings) ==> SomeFull(SentAll(more), percent, settings)
  {
    MeasuredAreReadable(found, paths, host);
    MeasuredAreReadable(more, all, host);
    if k :| 0 <= k < |found| && Full(SentAll(found)[k].value, percent, settings) {
      var device := Devices(paths, host)[k];
      FirstIsOnDevice(paths, host, device);
      FirstIsOnDevice(all, host, device);
      var j :| 0 <= j < |more| && Devices(all, host)[j] == device;
      assert MeasuredOne(found[k], device, paths, host) && MeasuredOne(more[j], device, all, host);
      assert Readable(SentAll(found)[k]) && Readable(SentAll(more)[j]);
      SameCountsEquallyFull(found[k], more[j], FirstOn(paths, host, device), percent, settings);
    }
  }

  /** One more path, measured at any point, on a device that is measured already: neither flag changes. */
  lemma ExtraPathChangesNothing(found: seq<Filesystem>, more: seq<Filesystem>, paths: seq<Path>, k: nat, path: Path,
                                host: Host, percent: int, settings: Pressure)
    requires k <= |paths| && Sane(host) && path.1 in host
    requires Reachable(paths, host) && Reachable(paths[..k], host) && Reachable(Inserted(paths, k, path), host)
    requires Measured(found, paths, host) && Measured(more, Inserted(paths, k, path), host)
    requires AddsNoCounts(paths, k, path, host)
    ensures AllReadable(SentAll(found)) && AllReadable(SentAll(more))
    ensures SomeFull(SentAll(more), percent, settings) == SomeFull(SentAll(found), percent, settings)
  {
    var all := Inserted(paths, k, path);
    forall device
      ensures FirstOn(all, host, device) == FirstOn(paths, host, device)
    {
      FirstAfterInsertion(paths, k, path, host, device);
    }
    SameCountsSameFlag(found, more, paths, all, host, percent, settings);
    SameCountsSameFlag(more, found, all, paths, host, percent, settings);
  }
}
