/** Docker inventory replication: full snapshots and deltas out, and the agent's record of
    what it has published. */
module DockerInventory {
  import opened Text

  // ---------------------------------------------------------------------- entities

  datatype Port = Port(host: int, container: int, protocol: string)
  datatype Mount = Mount(kind: string, source: string, destination: string)

  /** Everything about a container that is compared field by field, and its labels. */
  datatype Facts = Facts(
    id: string, name: string, image: string, state: string, status: string, created: string,
    ports: seq<Port>, networks: seq<string>, mounts: seq<Mount>)
  datatype Container = Container(facts: Facts, labels: map<string, string>)

  datatype Detail = Detail(
    status: string, configFile: string, configDir: string, selectionError: string,
    configFiles: seq<string>, containers: seq<string>)
  datatype Stack = Stack(name: string, detail: Detail)

  datatype Image = Image(id: string, tags: seq<string>, size: int, created: string)
  datatype Network = Network(id: string, name: string, driver: string, scope: string)
  datatype Volume = Volume(name: string, driver: string, mountpoint: string)
  datatype Engine = Engine(version: string, apiVersion: string, os: string, arch: string)

  /** What only full snapshots carry; compared field by field. */
  datatype Rest = Rest(
    engine: Engine, images: map<string, Image>, networks: map<string, Network>, volumes: map<string, Volume>)

  datatype Inventory = Inventory(containers: map<string, Container>, compose: seq<Stack>, rest: Rest)

  // ---------------------------------------------------------------------- equality

  function Label(labels: map<string, string>, key: string): string {
    if key in labels then labels[key] else ""
  }

  /** stringMapsEqual: a key that the second map lacks reads as the empty string. */
  predicate LabelsEqual(a: map<string, string>, b: map<string, string>) {
    |a| == |b| && forall key :: key in a ==> Label(b, key) == a[key]
  }

  predicate ContainerEqual(a: Container, b: Container) {
    a.facts == b.facts && LabelsEqual(a.labels, b.labels)
  }

  predicate ContainersEqual(a: map<string, Container>, b: map<string, Container>) {
    |a| == |b| && forall id :: id in a ==> id in b && ContainerEqual(a[id], b[id])
  }

  /** The map composeStacksEqual builds: the last stack of each name. */
  function ByName(stacks: seq<Stack>): map<string, Detail> {
    if stacks == [] then map[] else ByName(Front(stacks))[Last(stacks).name := Last(stacks).detail]
  }

  predicate ComposeEqual(a: seq<Stack>, b: seq<Stack>) {
    |a| == |b| && forall i :: 0 <= i < |b| ==> b[i].name in ByName(a) && ByName(a)[b[i].name] == b[i].detail
  }

  predicate InventoryEqual(a: Inventory, b: Inventory) {
    a.rest == b.rest && ContainersEqual(a.containers, b.containers) && ComposeEqual(a.compose, b.compose)
  }

  // --------------------------------------------- what label equality does not see

  /** A label with an empty value disappears, and no label with a value changes. */
  predicate LosesEmptyLabel(a: map<string, string>, b: map<string, string>) {
    && |a| == |b|
    && (forall key :: key in a && a[key] != "" ==> key in b && b[key] == a[key])
    && (forall key :: key in a && a[key] == "" && key in b ==> b[key] == "")
    && (exists key :: key in a && a[key] == "" && key !in b)
  }

  lemma SameKeys(a: map<string, string>, b: map<string, string>)
    requires |a| == |b| && forall key :: key in a ==> key in b && b[key] == a[key]
    ensures a == b
  {
    SubsetSameSize(a.Keys, b.Keys);
    assert a.Keys == b.Keys;
  }

  /** The comparison misses a change exactly when an empty label is lost this way. */
  lemma LabelsEqualExactly(a: map<string, string>, b: map<string, string>)
    ensures LabelsEqual(a, b) && a != b <==> LosesEmptyLabel(a, b)
  {
    if LabelsEqual(a, b) && !LosesEmptyLabel(a, b) {
      SameKeys(a, b);
    }
  }

  /** The same for whole containers. */
  predicate Silent(a: Container, b: Container) {
    a.facts == b.facts && LosesEmptyLabel(a.labels, b.labels)
  }

  lemma ContainerEqualExactly(a: Container, b: Container)
    ensures ContainerEqual(a, b) && a != b <==> Silent(a, b)
  {
    LabelsEqualExactly(a.labels, b.labels);
  }

  /** An undetected change: the label x="" gives way to y="v". */
  lemma EmptyLabelCounterexample(f: Facts)
    ensures var a, b := Container(f, map["x" := ""]), Container(f, map["y" := "v"]);
      ContainerEqual(a, b) && !ContainerEqual(b, a) && a != b
  {
    var a: map<string, string>, b: map<string, string> := map["x" := ""], map["y" := "v"];
    assert "x" in a && "x" !in b && "y" in b && "y" !in a;
    assert |a| == 1 && |b| == 1;
    assert Label(a, "y") != b["y"];
  }

  // ------------------------------------------------------------ Compose stack lists

  /** inferComposeStacks lists each project once, sorted by name. */
  ghost predicate ByNameAscending(s: seq<Stack>) {
    forall i, j :: 0 <= i < j < |s| ==> Less(s[i].name, s[j].name)
  }

  lemma {:induction false} ByNameIsListed(s: seq<Stack>, n: string)
    requires n in ByName(s)
    ensures Stack(n, ByName(s)[n]) in s
  {
    if n == Last(s).name {
      assert Last(s) == Stack(n, ByName(s)[n]) && s[|s| - 1] in s;
    } else {
      ByNameIsListed(Front(s), n);
      var i :| 0 <= i < |Front(s)| && Front(s)[i] == Stack(n, ByName(s)[n]);
      assert s[i] == Stack(n, ByName(s)[n]);
    }
  }

  lemma {:induction false} ListedIsByName(s: seq<Stack>, i: nat)
    requires ByNameAscending(s) && i < |s|
    ensures s[i].name in ByName(s) && ByName(s)[s[i].name] == s[i].detail
  {
    if i < |s| - 1 {
      ListedIsByName(Front(s), i);
      assert Front(s)[i] == s[i];
      LessIrreflexive(s[i].name);
      assert Less(s[i].name, Last(s).name);
    }
  }

  lemma NamesOrdered(s: seq<Stack>, i: nat, j: nat)
    requires ByNameAscending(s) && i < |s| && j < |s| && Less(s[i].name, s[j].name)
    ensures i < j
  {
    LessIrreflexive(s[i].name);
    if j < i {
      LessTransitive(s[i].name, s[j].name, s[i].name);
    }
  }

  lemma {:induction false} IndexAtLeast(a: seq<Stack>, b: seq<Stack>, i: nat) returns (j: nat)
    requires ByNameAscending(a) && ByNameAscending(b) && (forall k :: 0 <= k < |b| ==> b[k] in a) && i < |b|
    ensures i <= j < |a| && a[j] == b[i]
  {
    assert b[i] in a;
    j :| 0 <= j < |a| && a[j] == b[i];
    if i > 0 {
      var j' := IndexAtLeast(a, b, i - 1);
      NamesOrdered(a, j', j);
    }
  }

  lemma {:induction false} IndexAtMost(a: seq<Stack>, b: seq<Stack>, i: nat) returns (j: nat)
    requires ByNameAscending(a) && ByNameAscending(b) && (forall k :: 0 <= k < |b| ==> b[k] in a) && i < |b| == |a|
    ensures j <= i && a[j] == b[i]
    decreases |b| - i
  {
    assert b[i] in a;
    j :| 0 <= j < |a| && a[j] == b[i];
    if i + 1 < |b| {
      var j' := IndexAtMost(a, b, i + 1);
      NamesOrdered(a, j, j');
    }
  }

  /** On such lists the comparison is exact. */
  lemma ComposeEqualExactly(a: seq<Stack>, b: seq<Stack>)
    requires ByNameAscending(a) && ByNameAscending(b)
    ensures ComposeEqual(a, b) <==> a == b
  {
    if ComposeEqual(a, b) {
      forall k | 0 <= k < |b|
        ensures b[k] in a
      {
        ByNameIsListed(a, b[k].name);
      }
      forall i | 0 <= i < |b|
        ensures a[i] == b[i]
      {
        var j := IndexAtLeast(a, b, i);
        var j' := IndexAtMost(a, b, i);
        SameName(a, j, j');
      }
    }
    if a == b {
      forall i | 0 <= i < |b|
        ensures b[i].name in ByName(a) && ByName(a)[b[i].name] == b[i].detail
      {
        ListedIsByName(a, i);
      }
    }
  }

  lemma SameName(a: seq<Stack>, i: nat, j: nat)
    requires ByNameAscending(a) && i < |a| && j < |a| && a[i] == a[j]
    ensures i == j
  {
    LessIrreflexive(a[i].name);
  }

  // --------------------------------------------------------------- whole inventories

  /** The same containers, each one equal or changed in the one way that is not seen. */
  ghost predicate SameButSilent(a: map<string, Container>, b: map<string, Container>) {
    a.Keys == b.Keys && forall id :: id in a ==> a[id] == b[id] || Silent(a[id], b[id])
  }

  lemma ContainersEqualExactly(a: map<string, Container>, b: map<string, Container>)
    ensures ContainersEqual(a, b) <==> SameButSilent(a, b)
  {
    forall id | id in a && id in b
      ensures ContainerEqual(a[id], b[id]) <==> a[id] == b[id] || Silent(a[id], b[id])
    {
      ContainerEqualExactly(a[id], b[id]);
      LabelsEqualSelf(a[id].labels);
    }
    if ContainersEqual(a, b) {
      SubsetSameSize(a.Keys, b.Keys);
    }
    if SameButSilent(a, b) {
      assert |a| == |a.Keys| && |b| == |b.Keys|;
      assert forall id :: id in a ==> id in b;
    }
  }

  lemma LabelsEqualSelf(a: map<string, string>)
    ensures LabelsEqual(a, a)
  {
  }

  /** Snapshots compare equal exactly when everything is, but for containers that changed
      silently. */
  lemma InventoryEqualExactly(a: Inventory, b: Inventory)
    requires ByNameAscending(a.compose) && ByNameAscending(b.compose)
    ensures InventoryEqual(a, b) <==>
      a.rest == b.rest && a.compose == b.compose && SameButSilent(a.containers, b.containers)
  {
    ContainersEqualExactly(a.containers, b.containers);
    ComposeEqualExactly(a.compose, b.compose);
  }

  // -------------------------------------------------------------------------- diff

  function Upserts(prev: map<string, Container>, next: map<string, Container>): map<string, Container> {
    map id | id in next && Changed(prev, next, id) :: next[id]
  }

  function Removals(prev: map<string, Container>, next: map<string, Container>): set<string> {
    prev.Keys - next.Keys
  }

  function ApplyDelta(cs: map<string, Container>, upserts: map<string, Container>, removals: set<string>): map<string, Container> {
    (cs - removals) + upserts
  }

  ghost predicate NoSilentChange(prev: map<string, Container>, next: map<string, Container>) {
    forall id :: id in prev && id in next ==> !Silent(prev[id], next[id])
  }

  lemma DeltaAt(prev: map<string, Container>, next: map<string, Container>, id: string)
    ensures var cs := ApplyDelta(prev, Upserts(prev, next), Removals(prev, next));
      && (id in cs <==> id in next)
      && (id in next ==> (cs[id] == next[id] <==> !(id in prev && Silent(prev[id], next[id]))))
  {
    if id in prev && id in next {
      ContainerEqualExactly(prev[id], next[id]);
    }
  }

  /** Applying the delta to the previous containers gives the next ones exactly when no
      container changed silently. */
  lemma DeltaReachesNext(prev: map<string, Container>, next: map<string, Container>)
    ensures ApplyDelta(prev, Upserts(prev, next), Removals(prev, next)) == next <==> NoSilentChange(prev, next)
  {
    var cs := ApplyDelta(prev, Upserts(prev, next), Removals(prev, next));
    forall id
      ensures id in cs <==> id in next
      ensures id in next ==> (cs[id] == next[id] <==> !(id in prev && Silent(prev[id], next[id])))
    {
      DeltaAt(prev, next, id);
    }
    assert cs.Keys == next.Keys;
  }

  /** diffContainerInfoMap up to the order of its two lists. */
  method Diff(prev: map<string, Container>, next: map<string, Container>)
    returns (upserts: map<string, Container>, removals: set<string>)
    ensures upserts == Upserts(prev, next) && removals == Removals(prev, next)
    ensures forall id :: id in removals <==> id in prev && id !in next
    ensures forall id :: id in upserts <==> id in next && !(id in prev && ContainerEqual(prev[id], next[id]))
    ensures forall id :: id in upserts ==> upserts[id] == next[id]
  {
    upserts := CollectUpserts(prev, next);
    removals := CollectRemovals(prev, next);
  }

  method CollectRemovals(prev: map<string, Container>, next: map<string, Container>) returns (removals: set<string>)
    ensures removals == Removals(prev, next)
  {
    removals := {};
    var todo := prev.Keys;
    while todo != {}
      invariant todo <= prev.Keys
      invariant forall id :: id in removals <==> id in prev && id !in next && id !in todo
      decreases |todo|
    {
      var id :| id in todo;
      if id !in next {
        removals := removals + {id};
      }
      todo := todo - {id};
    }
  }

  predicate Changed(prev: map<string, Container>, next: map<string, Container>, id: string)
    requires id in next
  {
    !(id in prev && ContainerEqual(prev[id], next[id]))
  }

  method CollectUpserts(prev: map<string, Container>, next: map<string, Container>)
    returns (upserts: map<string, Container>)
    ensures upserts == Upserts(prev, next)
  {
    upserts := map[];
    var todo := next.Keys;
    while todo != {}
      invariant todo <= next.Keys
      invariant forall id :: id in upserts <==> id in next && id !in todo && Changed(prev, next, id)
      invariant forall id :: id in upserts ==> upserts[id] == next[id]
      decreases |todo|
    {
      var id :| id in todo;
      if id !in prev || !ContainerEqual(prev[id], next[id]) {
        upserts := upserts[id := next[id]];
      }
      todo := todo - {id};
    }
    assert upserts.Keys == Upserts(prev, next).Keys;
  }
}
