/**
  The mount list and the capability sets that a LinuxKit image definition turns
  into (`ConfigToOCI`). Runtimes mount the entries in the order listed, so a
  mount must come after those for the directories above it.
 */
module OciConfig {
  import opened Results
  import opened Seqs
  import opened Text
  import opened Sorting

  datatype Mount = Mount(destination: string, kind: string, source: string, options: seq<string>)

  /** The parts of an image definition used here; the same form serves the label of the image and the yaml. */
  datatype Image = Image(
    readonly: Option<bool>,
    tmpfs: Option<seq<string>>,
    binds: Option<seq<string>>,
    bindsAdd: Option<seq<string>>,
    mounts: Option<seq<Mount>>,
    capabilities: Option<seq<string>>,
    capabilitiesAdd: Option<seq<string>>,
    ambient: Option<seq<string>>)

  datatype ConfigError =
    | BadTmpfs(text: string)
    | BadBind(text: string)
    | NoType(destination: string)
    | NoDestination(kind: string)
    | UnknownCapability(name: string)

  /** Ordered overrides: the second if given, else the first, else a default. */
  function Assign<T>(v1: Option<T>, v2: Option<T>, default: T): T {
    if v2.Some? then v2.value else if v1.Some? then v1.value else default
  }

  /** `mergeStrings`: the map meant to drop repetitions is never filled, so this is concatenation. */
  function MergeStrings(v1: Option<seq<string>>, v2: Option<seq<string>>): Option<seq<string>> {
    if v1.None? && v2.None? then Some([])
    else if v2.None? then v1
    else if v1.None? then v2
    else Some(v1.value + v2.value)
  }

  // ----- where mounts come from -----

  function Defaults(readonly: bool): seq<Mount> {
    var ro := if readonly then ["ro"] else [];
    [Mount("/proc", "proc", "proc", ["nosuid", "nodev", "noexec", "relatime"]),
     Mount("/dev", "tmpfs", "tmpfs", ["nosuid", "strictatime", "mode=755", "size=65536k"] + ro),
     Mount("/dev/pts", "devpts", "devpts", ["nosuid", "noexec", "newinstance", "ptmxmode=0666", "mode=0620"]),
     Mount("/sys", "sysfs", "sysfs", ["nosuid", "noexec", "nodev"] + ro),
     Mount("/sys/fs/cgroup", "cgroup", "cgroup", ["nosuid", "noexec", "nodev", "relatime", "ro"])]
  }

  function TmpfsMount(t: string): Result<Mount, ConfigError> {
    var parts := Split(t, ':');
    if |parts| > 2 then Failure(BadTmpfs(t))
    else Success(Mount(parts[0], "tmpfs", "tmpfs", if |parts| == 2 then Split(parts[1], ',') else []))
  }

  function BindMount(b: string): Result<Mount, ConfigError> {
    var parts := Split(b, ':');
    if |parts| < 2 || |parts| > 3 then Failure(BadBind(b))
    else
      Success(Mount(parts[1], "bind", parts[0],
                    if |parts| == 3 then Split(parts[2], ',') + ["rbind"] else ["rw", "rbind", "rshared"]))
  }

  function DefaultMountpoint(kind: string): string {
    if kind == "proc" then "/proc"
    else if kind == "devpts" then "/dev/pts"
    else if kind == "sysfs" then "/sys"
    else if kind == "cgroup" then "/sys/fs/cgroup"
    else if kind == "mqueue" then "/dev/mqueue"
    else ""
  }

  function ExplicitMount(m: Mount): Result<Mount, ConfigError> {
    var named := if m.kind == "" && m.source in ["mqueue", "devpts", "proc", "sysfs", "cgroup"] then m.source else m.kind;
    var kind := if named == "" && m.destination == "/dev" then "tmpfs" else named;
    if kind == "" then Failure(NoType(m.destination))
    else
      var source := if m.source == "" then kind else m.source;
      var destination := if m.destination == "" then DefaultMountpoint(kind) else m.destination;
      if destination == "" then Failure(NoDestination(kind))
      else Success(Mount(destination, kind, source, m.options))
  }

  /** A bind written out as source, destination and options is read back as such; without options it is shared. */
  lemma BindReadsBack(source: string, destination: string, options: string, more: string)
    requires ':' !in source && ':' !in destination && ':' !in options
    ensures BindMount(source + ":" + destination) == Success(Mount(destination, "bind", source, ["rw", "rbind", "rshared"]))
    ensures BindMount(source + ":" + destination + ":" + options)
      == Success(Mount(destination, "bind", source, Split(options, ',') + ["rbind"]))
    ensures BindMount(source) == Failure(BadBind(source))
    ensures BindMount(source + ":" + destination + ":" + options + ":" + more) == Failure(BadBind(source + ":" + destination + ":" + options + ":" + more))
  {
    hide Split;
    SplitAtFirst(source, destination + ":" + options + ":" + more, ':');
    SplitAtFirst(destination, options + ":" + more, ':');
    SplitAtFirst(options, more, ':');
    assert source + ":" + destination + ":" + options + ":" + more == source + [':'] + (destination + ":" + options + ":" + more);
    assert destination + ":" + options + ":" + more == destination + [':'] + (options + ":" + more);
    assert options + ":" + more == options + [':'] + more;
    SplitWhole(source, ':');
    SplitAtFirst(source, destination, ':');
    SplitWhole(destination, ':');
    SplitAtFirst(source, destination + ":" + options, ':');
    SplitAtFirst(destination, options, ':');
    SplitWhole(options, ':');
    assert source + ":" + destination == source + [':'] + destination;
    assert source + ":" + destination + ":" + options == source + [':'] + (destination + ":" + options);
  }

  lemma TmpfsReadsBack(destination: string, options: string, more: string)
    requires ':' !in destination && ':' !in options
    ensures TmpfsMount(destination) == Success(Mount(destination, "tmpfs", "tmpfs", []))
    ensures TmpfsMount(destination + ":" + options) == Success(Mount(destination, "tmpfs", "tmpfs", Split(options, ',')))
    ensures TmpfsMount(destination + ":" + options + ":" + more) == Failure(BadTmpfs(destination + ":" + options + ":" + more))
  {
    hide Split;
    SplitAtFirst(destination, options + ":" + more, ':');
    SplitAtFirst(options, more, ':');
    assert destination + ":" + options + ":" + more == destination + [':'] + (options + ":" + more);
    assert options + ":" + more == options + [':'] + more;
    SplitWhole(destination, ':');
    SplitAtFirst(destination, options, ':');
    SplitWhole(options, ':');
    assert destination + ":" + options == destination + [':'] + options;
  }

  /** Types that may stand as a source alone, and where they are mounted unless stated. */
  predicate MountedAt(kind: string, destination: string) {
    || (kind == "proc" && destination == "/proc") || (kind == "devpts" && destination == "/dev/pts")
    || (kind == "sysfs" && destination == "/sys") || (kind == "cgroup" && destination == "/sys/fs/cgroup")
    || (kind == "mqueue" && destination == "/dev/mqueue")
  }

  /**
    An explicit mount keeps what is stated. A missing type is the source, if that has a place of its own, or tmpfs
    on /dev; a missing source is the type; a missing destination is the place of the type. It is refused exactly
    when the type or the destination cannot be completed so.
   */
  lemma ExplicitMountCompletes(m: Mount)
    ensures match ExplicitMount(m)
      case Success(r) =>
        && r.destination != "" && r.kind != "" && r.options == m.options
        && (if m.destination != "" then r.destination == m.destination else MountedAt(r.kind, r.destination))
        && (if m.kind != "" then r.kind == m.kind
            else (exists d :: MountedAt(m.source, d) && r.kind == m.source) || (m.destination == "/dev" && r.kind == "tmpfs"))
        && r.source == if m.source != "" then m.source else r.kind
      case Failure(e) =>
        || (e == NoType(m.destination) && m.kind == "" && m.destination != "/dev" && forall d :: !MountedAt(m.source, d))
        || (e.NoDestination? && m.destination == "" && (m.kind != "" ==> e.kind == m.kind) && forall d :: !MountedAt(e.kind, d))
  {
    if m.kind == "" && m.source in ["mqueue", "devpts", "proc", "sysfs", "cgroup"] {
      assert MountedAt(m.source, DefaultMountpoint(m.source));
    }
    PlacesOf(m.source);
    PlacesOf(m.kind);
    PlacesOf("tmpfs");
  }

  lemma PlacesOf(kind: string)
    ensures (exists d :: MountedAt(kind, d)) <==> DefaultMountpoint(kind) != ""
    ensures DefaultMountpoint(kind) != "" ==> MountedAt(kind, DefaultMountpoint(kind))
    ensures DefaultMountpoint(kind) != "" <==> kind in ["mqueue", "devpts", "proc", "sysfs", "cgroup"]
  {
    assert DefaultMountpoint(kind) != "" ==> MountedAt(kind, DefaultMountpoint(kind));
  }

  /** All of them, or the first that fails. */
  function Each<S>(from: seq<S>, mount: S -> Result<Mount, ConfigError>): Result<seq<Mount>, ConfigError> {
    if from == [] then Success([])
    else
      var first :- mount(from[0]);
      var rest :- Each(from[1..], mount);
      Success([first] + rest)
  }

  /** Every mount asked for, in the order they are written: defaults, tmpfs, binds, mounts. */
  function Writes(image: Image, yaml: Image): Result<seq<Mount>, ConfigError> {
    var tmpfs :- Each(Assign(image.tmpfs, yaml.tmpfs, []), TmpfsMount);
    var binds :- Each(Assign(MergeStrings(image.binds, yaml.bindsAdd), yaml.binds, []), BindMount);
    var mounts :- Each(Assign(image.mounts, yaml.mounts, []), ExplicitMount);
    Success(Defaults(Assign(image.readonly, yaml.readonly, false)) + tmpfs + binds + mounts)
  }

  /** What yaml states overrides the label: the label's own values do not matter then. */
  lemma YamlOverridesMounts(image: Image, image': Image, yaml: Image)
    requires yaml.readonly.Some? && yaml.tmpfs.Some? && yaml.binds.Some? && yaml.mounts.Some?
    ensures Writes(image, yaml) == Writes(image', yaml)
  {
    hide Each, Defaults;
  }

  /** Where yaml states nothing the label counts, and with neither there are the defaults. */
  lemma LabelCountsForMounts(image: Image, yaml: Image)
    requires yaml.readonly.None? && yaml.tmpfs.None? && yaml.binds.None? && yaml.mounts.None? && yaml.bindsAdd.None?
    ensures Writes(image, yaml) == Writes(yaml, image.(bindsAdd := None))
    ensures Writes(yaml, yaml) == Success(Defaults(false))
  {
    hide TmpfsMount, BindMount, ExplicitMount;
    assert Defaults(false) + [] + [] + [] == Defaults(false);
  }

  /** Binds that yaml adds come after those of the label, repetitions included. */
  lemma BindsAreAdded(image: Image, yaml: Image, more: seq<string>)
    requires yaml.binds.None? && yaml.bindsAdd == Some(more) && image.binds.Some?
    ensures Writes(image, yaml) == Writes(image.(binds := Some(image.binds.value + more)), yaml.(bindsAdd := None))
  {
    hide Each, Defaults;
  }

  /** The kinds of mounts asked for, each in the order stated: the last of the last kind counts for a destination. */
  lemma LaterKindWins(defaults: seq<Mount>, tmpfs: seq<Mount>, binds: seq<Mount>, mounts: seq<Mount>, m: Mount)
    ensures var writes := defaults + tmpfs + binds + mounts;
      && (LastWriter(mounts, m) ==> LastWriter(writes, m))
      && (LastWriter(binds, m) && Unstated(mounts, m.destination) ==> LastWriter(writes, m))
      && (LastWriter(tmpfs, m) && Unstated(binds + mounts, m.destination) ==> LastWriter(writes, m))
      && (LastWriter(defaults, m) && Unstated(tmpfs + binds + mounts, m.destination) ==> LastWriter(writes, m))
  {
    LastOfLater(defaults + tmpfs + binds, mounts, m);
    LastOfLater(defaults + tmpfs, binds, m);
    LastOfLater(defaults, tmpfs, m);
    if LastWriter(binds, m) && Unstated(mounts, m.destination) {
      LastStays(defaults + tmpfs + binds, mounts, m);
    }
    if LastWriter(tmpfs, m) && Unstated(binds + mounts, m.destination) {
      LastStays(defaults + tmpfs, binds + mounts, m);
      assert defaults + tmpfs + (binds + mounts) == defaults + tmpfs + binds + mounts;
    }
    if LastWriter(defaults, m) && Unstated(tmpfs + binds + mounts, m.destination) {
      LastStays(defaults, tmpfs + binds + mounts, m);
      assert defaults + (tmpfs + binds + mounts) == defaults + tmpfs + binds + mounts;
    }
  }

  predicate Unstated(writes: seq<Mount>, destination: string) {
    forall m :: m in writes ==> m.destination != destination
  }

  lemma LastOfLater(a: seq<Mount>, b: seq<Mount>, m: Mount)
    ensures LastWriter(b, m) ==> LastWriter(a + b, m)
  {
    if i :| 0 <= i < |b| && b[i] == m && forall j :: i < j < |b| ==> b[j].destination != m.destination {
      assert (a + b)[|a| + i] == m;
    }
  }

  lemma LastStays(a: seq<Mount>, b: seq<Mount>, m: Mount)
    requires LastWriter(a, m) && Unstated(b, m.destination)
    ensures LastWriter(a + b, m)
  {
    var i :| 0 <= i < |a| && a[i] == m && forall j :: i < j < |a| ==> a[j].destination != m.destination;
    assert (a + b)[i] == m;
    assert forall j :: |a| <= j < |a + b| ==> (a + b)[j] in b;
  }

  /** Every kind goes into the writes, in this order. */
  lemma WritesAreKinds(image: Image, yaml: Image) returns (tmpfs: seq<Mount>, binds: seq<Mount>, mounts: seq<Mount>)
    requires Writes(image, yaml).Success?
    ensures Writes(image, yaml).value ==
      Defaults(if yaml.readonly.Some? then yaml.readonly.value else image.readonly.Some? && image.readonly.value) + tmpfs + binds + mounts
    ensures Success(mounts) == Each(if yaml.mounts.Some? then yaml.mounts.value else if image.mounts.Some? then image.mounts.value else [], ExplicitMount)
    ensures Success(tmpfs) == Each(if yaml.tmpfs.Some? then yaml.tmpfs.value else if image.tmpfs.Some? then image.tmpfs.value else [], TmpfsMount)
    ensures yaml.binds.Some? ==> Success(binds) == Each(yaml.binds.value, BindMount)
  {
    hide Each, Defaults;
    tmpfs := Each(Assign(image.tmpfs, yaml.tmpfs, []), TmpfsMount).value;
    binds := Each(Assign(MergeStrings(image.binds, yaml.bindsAdd), yaml.binds, []), BindMount).value;
    mounts := Each(Assign(image.mounts, yaml.mounts, []), ExplicitMount).value;
  }

  /** What stated mounts come to, one for one and in order; or the first that is refused. */
  lemma {:induction false} EachMeans<S>(from: seq<S>, mount: S -> Result<Mount, ConfigError>)
    ensures match Each(from, mount)
      case Success(r) => |r| == |from| && forall i :: 0 <= i < |from| ==> mount(from[i]) == Success(r[i])
      case Failure(e) => exists i :: 0 <= i < |from| && mount(from[i]) == Failure(e) && forall j :: 0 <= j < i ==> mount(from[j]).Success?
  {
    if from != [] {
      EachMeans(from[1..], mount);
      if mount(from[0]).Success? {
        match Each(from[1..], mount)
        case Success(r) =>
          assert forall i :: 0 < i < |from| ==> from[i] == from[1..][i - 1];
        case Failure(e) =>
          var i :| 0 <= i < |from[1..]| && mount(from[1..][i]) == Failure(e) && forall j :: 0 <= j < i ==> mount(from[1..][j]).Success?;
          assert mount(from[i + 1]) == Failure(e);
          assert forall j :: 0 < j < i + 1 ==> from[j] == from[1..][j - 1];
      }
    }
  }

  /** The default mounts: these destinations, and /dev and /sys read-only exactly if the root is. */
  lemma DefaultsAre(readonly: bool)
    ensures var d := Defaults(readonly);
      && |d| == 5 && d[0].destination == "/proc" && d[1].destination == "/dev" && d[2].destination == "/dev/pts"
      && d[3].destination == "/sys" && d[4].destination == "/sys/fs/cgroup"
      && (forall m :: m in d ==> m.kind == m.source)
      && ("ro" in d[1].options <==> readonly) && ("ro" in d[3].options <==> readonly) && "ro" in d[4].options
  {
    var d := Defaults(readonly);
    assert "nosuid"[0] == 'n' && "strictatime"[0] == 's' && "mode=755"[0] == 'm' && "size=65536k"[0] == 's';
    assert "noexec"[0] == 'n' && "nodev"[0] == 'n' && "ro"[0] == 'r';
    assert readonly ==> d[1].options[4] == "ro" && d[3].options[3] == "ro";
    assert d[4].options[4] == "ro";
  }

  // ----- what should come of them -----

  function Destination(m: Mount): string {
    m.destination
  }

  /** The last write for its destination. */
  ghost predicate LastWriter(writes: seq<Mount>, m: Mount) {
    exists i :: 0 <= i < |writes| && writes[i] == m
      && forall j :: i < j < |writes| ==> writes[j].destination != m.destination
  }

  /** The map that the writes fill. */
  function Table(writes: seq<Mount>): map<string, Mount> {
    if writes == [] then map[]
    else
      var m := writes[|writes| - 1];
      Table(writes[..|writes| - 1])[m.destination := m]
  }

  lemma TableSnoc(writes: seq<Mount>, m: Mount)
    ensures Table(writes + [m]) == Table(writes)[m.destination := m]
  {
    assert (writes + [m])[..|writes|] == writes;
  }

  lemma {:induction false} TableHolds(writes: seq<Mount>)
    ensures forall d :: d in Table(writes) ==> Table(writes)[d].destination == d && LastWriter(writes, Table(writes)[d])
    ensures forall m :: m in writes ==> m.destination in Table(writes)
  {
    hide LastWriter;
    if writes != [] {
      var init, last := writes[..|writes| - 1], writes[|writes| - 1];
      TableHolds(init);
      assert writes == init + [last];
      forall d | d in Table(writes)
        ensures Table(writes)[d].destination == d && LastWriter(writes, Table(writes)[d])
      {
        if d == last.destination {
          OnlyWriter(last);
          LastOfLater(init, [last], last);
        } else {
          LastStays(init, [last], Table(init)[d]);
        }
      }
    }
  }

  lemma OnlyWriter(m: Mount)
    ensures LastWriter([m], m)
  {
    assert [m][0] == m;
  }

  /** A destination has only one last writer. */
  lemma LastWriterUnique(writes: seq<Mount>, a: Mount, b: Mount)
    requires LastWriter(writes, a) && LastWriter(writes, b) && a.destination == b.destination
    ensures a == b
  {
    var i :| 0 <= i < |writes| && writes[i] == a && forall j :: i < j < |writes| ==> writes[j].destination != a.destination;
    var k :| 0 <= k < |writes| && writes[k] == b && forall j :: k < j < |writes| ==> writes[j].destination != b.destination;
  }

  /** The table's values are exactly the last writers. */
  lemma {:induction false} TableIsLastWriters(writes: seq<Mount>, m: Mount)
    ensures LastWriter(writes, m) <==> m.destination in Table(writes) && Table(writes)[m.destination] == m
  {
    TableHolds(writes);
    if LastWriter(writes, m) {
      assert m in writes;
      LastWriterUnique(writes, m, Table(writes)[m.destination]);
    }
  }

  /** The list that a set of writes must come to: ascending by destination, holding exactly the last writers. */
  ghost predicate IsMountList(list: seq<Mount>, writes: seq<Mount>) {
    && Ascending(list, Destination)
    && forall m :: m in list <==> LastWriter(writes, m)
  }

  /** There is only one such list, whatever order the map was walked in. */
  lemma MountListUnique(a: seq<Mount>, b: seq<Mount>, writes: seq<Mount>)
    requires IsMountList(a, writes) && IsMountList(b, writes)
    ensures a == b
  {
    AscendingUnique(a, b, Destination);
  }

  /** A directory is mounted before what lies below it. */
  lemma ParentsFirst(list: seq<Mount>, writes: seq<Mount>, i: nat, j: nat)
    requires IsMountList(list, writes) && i < |list| && j < |list|
    requires list[i].destination < list[j].destination  // proper prefix
    ensures i < j
  {
    ProperPrefixLess(list[i].destination, list[j].destination);
    AscendingPlaces(list, Destination, i, j);
  }

  // ----- the code for mounts -----

  /** One of the three loops that fill the map. */
  method AddEach<S>(from: seq<S>, mount: S -> Result<Mount, ConfigError>, mounts: map<string, Mount>, ghost writes: seq<Mount>)
      returns (r: Result<map<string, Mount>, ConfigError>)
    requires mounts == Table(writes)
    ensures var all := Outcome(writes, Each(from, mount));
      r == if all.Success? then Success(Table(all.value)) else Failure(all.error)
  {
    var table := mounts;
    ghost var past := writes;
    assert from[0..] == from;
    for i := 0 to |from|
      invariant table == Table(past)
      invariant Outcome(past, Each(from[i..], mount)) == Outcome(writes, Each(from, mount))
    {
      var m := mount(from[i]);
      EachCons(past, from[i], from[i + 1..], mount);
      assert from[i..] == [from[i]] + from[i + 1..];
      if m.Failure? {
        return Failure(m.error);
      }
      TableSnoc(past, m.value);
      table := table[m.value.destination := m.value];
      past := past + [m.value];
    }
    assert past + [] == past;
    return Success(table);
  }

  /** The map's values in some order, then sorted. */
  method SortedValues(mounts: map<string, Mount>, ghost writes: seq<Mount>) returns (list: seq<Mount>)
    requires mounts == Table(writes)
    ensures IsMountList(list, writes)
  {
    TableHolds(writes);
    var values: seq<Mount> := [];
    var remaining := mounts.Keys;
    while remaining != {}
      invariant remaining <= mounts.Keys
      invariant forall m :: m in values <==> m.destination in mounts.Keys - remaining && mounts[m.destination] == m
      invariant DistinctKeys(values, Destination)
      decreases remaining
    {
      var d :| d in remaining;
      assert forall i :: 0 <= i < |values| ==> values[i] in values;
      values := values + [mounts[d]];
      remaining := remaining - {d};
    }
    SortMembers(values, Destination);
    SortAscending(values, Destination);
    list := SortBy(values, Destination);
    forall m
      ensures m in list <==> LastWriter(writes, m)
    {
      TableIsLastWriters(writes, m);
    }
  }

  method Mounts(image: Image, yaml: Image) returns (r: Result<seq<Mount>, ConfigError>)
    ensures var writes := Writes(image, yaml);
      if writes.Success? then r.Success? && IsMountList(r.value, writes.value) else r == Failure(writes.error)
  {
    hide Defaults, TmpfsMount, BindMount, ExplicitMount, Table, IsMountList;
    var defaults := Defaults(Assign(image.readonly, yaml.readonly, false));
    var mounts := DefaultTable(defaults);
    ghost var writes := defaults;
    ghost var tmpfs := Each(Assign(image.tmpfs, yaml.tmpfs, []), TmpfsMount);
    var table := AddEach(Assign(image.tmpfs, yaml.tmpfs, []), TmpfsMount, mounts, writes);
    if table.Failure? {
      return Failure(table.error);
    }
    writes := writes + tmpfs.value;
    ghost var binds := Each(Assign(MergeStrings(image.binds, yaml.bindsAdd), yaml.binds, []), BindMount);
    table := AddEach(Assign(MergeStrings(image.binds, yaml.bindsAdd), yaml.binds, []), BindMount, table.value, writes);
    if table.Failure? {
      return Failure(table.error);
    }
    writes := writes + binds.value;
    ghost var explicit := Each(Assign(image.mounts, yaml.mounts, []), ExplicitMount);
    table := AddEach(Assign(image.mounts, yaml.mounts, []), ExplicitMount, table.value, writes);
    if table.Failure? {
      return Failure(table.error);
    }
    writes := writes + explicit.value;
    var list := SortedValues(table.value, writes);
    return Success(list);
  }

  method DefaultTable(defaults: seq<Mount>) returns (mounts: map<string, Mount>)
    ensures mounts == Table(defaults)
  {
    mounts := map[];
    for i := 0 to |defaults|
      invariant mounts == Table(defaults[..i])
    {
      TableSnoc(defaults[..i], defaults[i]);
      assert defaults[..i + 1] == defaults[..i] + [defaults[i]];
      mounts := mounts[defaults[i].destination := defaults[i]];
    }
    assert defaults[..|defaults|] == defaults;
  }

  /** All writes so far followed by those still to come. */
  function Outcome(done: seq<Mount>, more: Result<seq<Mount>, ConfigError>): Result<seq<Mount>, ConfigError> {
    if more.Success? then Success(done + more.value) else more
  }

  lemma EachCons<S>(done: seq<Mount>, x: S, rest: seq<S>, mount: S -> Result<Mount, ConfigError>)
    ensures Outcome(done, Each([x] + rest, mount)) ==
      if mount(x).Failure? then Failure(mount(x).error) else Outcome(done + [mount(x).value], Each(rest, mount))
  {
    assert ([x] + rest)[1..] == rest;
    var more := Each(rest, mount);
    if mount(x).Success? && more.Success? {
      assert done + ([mount(x).value] + more.value) == done + [mount(x).value] + more.value;
    }
  }

  // ----- capabilities -----

  datatype Capabilities = Capabilities(
    bounding: seq<string>, effective: seq<string>, inheritable: seq<string>, permitted: seq<string>, ambient: seq<string>)

  function Lower(s: string): string {
    if s == "" then ""
    else [if 'A' <= s[0] <= 'Z' then (s[0] as int + 32) as char else s[0]] + Lower(s[1..])
  }

  /** A list that is just "none" or "all", in any case, stands for no or every capability. */
  function Expand(caps: seq<string>, allCaps: seq<string>): seq<string> {
    if |caps| == 1 && Lower(caps[0]) == "none" then []
    else if |caps| == 1 && Lower(caps[0]) == "all" then allCaps
    else caps
  }

  function WantedCaps(image: Image, yaml: Image, allCaps: seq<string>): seq<string> {
    Expand(Assign(MergeStrings(image.capabilities, yaml.capabilitiesAdd), yaml.capabilities, []), allCaps)
  }

  function WantedAmbient(image: Image, yaml: Image, allCaps: seq<string>): seq<string> {
    Expand(Assign(image.ambient, yaml.ambient, []), allCaps)
  }

  /** A list of one entry "none" or "all", in either case, stands for no or for every capability; others for themselves. */
  lemma NoneAndAll(caps: seq<string>, allCaps: seq<string>)
    ensures Expand(["none"], allCaps) == [] && Expand(["None"], allCaps) == [] && Expand(["NONE"], allCaps) == []
    ensures Expand(["all"], allCaps) == allCaps && Expand(["All"], allCaps) == allCaps && Expand(["ALL"], allCaps) == allCaps
    ensures |caps| != 1 ==> Expand(caps, allCaps) == caps
    ensures |caps| == 1 && |caps[0]| != 4 && |caps[0]| != 3 ==> Expand(caps, allCaps) == caps
  {
    LowerFour('n', 'o', 'n', 'e');
    LowerFour('N', 'o', 'n', 'e');
    LowerFour('N', 'O', 'N', 'E');
    LowerThree('a', 'l', 'l');
    LowerThree('A', 'l', 'l');
    LowerThree('A', 'L', 'L');
    assert ['n', 'o', 'n', 'e'] == "none" && ['N', 'o', 'n', 'e'] == "None" && ['N', 'O', 'N', 'E'] == "NONE";
    assert ['a', 'l', 'l'] == "all" && ['A', 'l', 'l'] == "All" && ['A', 'L', 'L'] == "ALL";
    assert "all"[0] != "none"[0];
    if |caps| == 1 {
      LowerLength(caps[0]);
    }
  }

  function LowerChar(c: char): char {
    if 'A' <= c <= 'Z' then (c as int + 32) as char else c
  }

  lemma LowerFour(a: char, b: char, c: char, d: char)
    ensures Lower([a, b, c, d]) == [LowerChar(a), LowerChar(b), LowerChar(c), LowerChar(d)]
  {
    LowerThree(b, c, d);
    assert [a, b, c, d][1..] == [b, c, d];
  }

  lemma LowerThree(a: char, b: char, c: char)
    ensures Lower([a, b, c]) == [LowerChar(a), LowerChar(b), LowerChar(c)]
  {
    assert [a, b, c][1..] == [b, c] && [b, c][1..] == [c] && [c][1..] == [];
    assert Lower([c]) == [LowerChar(c)];
    assert Lower([b, c]) == [LowerChar(b), LowerChar(c)];
  }

  lemma {:induction false} LowerLength(s: string)
    ensures |Lower(s)| == |s|
  {
    if s != "" {
      LowerLength(s[1..]);
    }
  }

  /** Capabilities: yaml's list if it states one; else the label's, followed by those that yaml adds. */
  lemma CapabilitiesFrom(image: Image, yaml: Image, allCaps: seq<string>)
    ensures yaml.capabilities.Some? ==> WantedCaps(image, yaml, allCaps) == Expand(yaml.capabilities.value, allCaps)
    ensures yaml.capabilities.None? && image.capabilities.Some? && yaml.capabilitiesAdd.Some? ==>
      WantedCaps(image, yaml, allCaps) == Expand(image.capabilities.value + yaml.capabilitiesAdd.value, allCaps)
    ensures yaml.capabilities.None? && yaml.capabilitiesAdd.None? && image.capabilities.Some? ==>
      WantedCaps(image, yaml, allCaps) == Expand(image.capabilities.value, allCaps)
    ensures yaml.capabilities.None? && image.capabilities.None? ==>
      WantedCaps(image, yaml, allCaps) == Expand(if yaml.capabilitiesAdd.Some? then yaml.capabilitiesAdd.value else [], allCaps)
    ensures WantedAmbient(image, yaml, allCaps) ==
      Expand(if yaml.ambient.Some? then yaml.ambient.value else if image.ambient.Some? then image.ambient.value else [], allCaps)
  {
    hide Expand;
  }

  function Self(s: string): string {
    s
  }

  /** Every entry is known, or the first that is not is reported. */
  method CheckCaps(caps: seq<string>, allCaps: seq<string>, given: set<string>) returns (r: Result<set<string>, ConfigError>)
    ensures r.Success? <==> forall c :: c in caps ==> c in allCaps
    ensures r.Success? ==> r.value == given + set c | c in caps
    ensures r.Failure? ==> r.error.UnknownCapability? && r.error.name in caps && r.error.name !in allCaps
  {
    var boundingSet := given;
    for i := 0 to |caps|
      invariant forall c :: c in caps[..i] ==> c in allCaps
      invariant boundingSet == given + set c | c in caps[..i]
    {
      assert caps[..i + 1] == caps[..i] + [caps[i]];
      if caps[i] !in allCaps {
        return Failure(UnknownCapability(caps[i]));
      }
      boundingSet := boundingSet + {caps[i]};
    }
    assert caps[..|caps|] == caps;
    return Success(boundingSet);
  }

  /** A set of strings as a sorted list, whatever order it is walked in. */
  method SortedSet(s: set<string>) returns (list: seq<string>)
    ensures Ascending(list, Self) && forall x :: x in list <==> x in s
  {
    var values: seq<string> := [];
    var remaining := s;
    while remaining != {}
      invariant remaining <= s
      invariant forall x :: x in values <==> x in s - remaining
      invariant DistinctKeys(values, Self)
      decreases remaining
    {
      var x :| x in remaining;
      assert forall i :: 0 <= i < |values| ==> values[i] in values;
      values := values + [x];
      remaining := remaining - {x};
    }
    SortMembers(values, Self);
    SortAscending(values, Self);
    list := SortBy(values, Self);
  }

  /**
    The bounding set is the sorted union, without repetition, of what is effective
    and what is ambient; so everything effective is permitted, and everything
    ambient is both permitted and inheritable, as the kernel demands.
   */
  method Caps(image: Image, yaml: Image, allCaps: seq<string>) returns (r: Result<Capabilities, ConfigError>)
    ensures var caps, ambient := WantedCaps(image, yaml, allCaps), WantedAmbient(image, yaml, allCaps);
      && (r.Success? <==> forall c :: c in caps || c in ambient ==> c in allCaps)
      && (r.Success? ==> r.value.effective == caps && r.value.ambient == ambient
                         && r.value.inheritable == r.value.bounding && r.value.permitted == r.value.bounding
                         && Ascending(r.value.bounding, Self)
                         && (forall c :: c in r.value.bounding <==> c in caps || c in ambient))
      && (r.Failure? ==> r.error.UnknownCapability? && (r.error.name in caps || r.error.name in ambient) && r.error.name !in allCaps)
  {
    hide Expand, Less;
    var caps := WantedCaps(image, yaml, allCaps);
    var checked := CheckCaps(caps, allCaps, {});
    if checked.Failure? {
      return Failure(checked.error);
    }
    var ambient := WantedAmbient(image, yaml, allCaps);
    checked := CheckCaps(ambient, allCaps, checked.value);
    if checked.Failure? {
      return Failure(checked.error);
    }
    var bounding := SortedSet(checked.value);
    return Success(Capabilities(bounding, caps, bounding, bounding, ambient));
  }
}
