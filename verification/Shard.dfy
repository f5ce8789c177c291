/** Sharded test runs of `scripts/ci-go-shard.py`: which tests a shard runs and under which
    pattern, what it records, and when the merge of all shards is accepted. The hash of a name,
    digests of files and the go tool are parameters. */
module Shard {
  import opened Base
  import opened Sequences
  import opened Sorting
  import opened RunPattern

  datatype Test = Test(package: string, name: string)

  /** A decoded event of `go test -json`; `output` is stripped. */
  datatype GoEvent = GoEvent(action: string, package: string, test: Option<string>, output: string)

  datatype Toolchain = Toolchain(commit: string, go: string, goos: string, goarch: string)

  datatype Plan = Plan(tools: Toolchain, index: nat, count: nat, tests: seq<Test>, selected: seq<Test>)

  datatype Complete = Complete(planDigest: string, profileDigest: string, executed: seq<Test>)

  /** A line of a coverage profile after the first. */
  datatype Line = Block(location: string, statements: int, hits: int) | Unreadable

  /** `header` is the first line, None in an empty file. */
  datatype Profile = Profile(header: Option<string>, lines: seq<Line>)

  datatype Folder = Folder(plan: Plan, complete: Complete, profile: Profile)

  datatype Digests = Digests(plan: Plan -> string, profile: Profile -> string)

  datatype Error =
    | EmptyInventory | DiffersFromPlan | BadEvent
    | MissingFolder | Provenance | DifferentSource | ShardExecution | NotAtomic | BadLine | Negative
    | BlocksDisagree | Incomplete | OtherCheckout

  datatype Result<T> = Ok(value: T) | Err(error: Error)

  // ---------- selecting ----------

  predicate Word(c: char) {
    'a' <= c <= 'z' || 'A' <= c <= 'Z' || '0' <= c <= '9' || c == '_' || c as int >= 128
  }

  /** `(?:Test|Example|Fuzz)\w*`, where every non-ASCII character may be a word character. */
  predicate TestName(s: string) {
    && ("Test" <= s || "Example" <= s || "Fuzz" <= s)
    && forall i :: 0 <= i < |s| ==> Word(s[i])
  }

  function Listed(listing: seq<GoEvent>): seq<Test> {
    if listing == [] then []
    else
      var e := listing[|listing| - 1];
      Listed(listing[..|listing| - 1]) +
      (if e.action == "output" && TestName(e.output) then [Test(e.package, e.output)] else [])
  }

  predicate TestLess(a: Test, b: Test) {
    CodeLess(a.package, b.package) || (a.package == b.package && CodeLess(a.name, b.name))
  }

  function Inventory(listing: seq<GoEvent>): seq<Test> {
    StableSort(TestLess, Unique(Listed(listing)))
  }

  /** `owner`. */
  function Owner(hash: string -> nat, count: nat, name: string): nat
    requires count > 0
  {
    hash(name) % count
  }

  function Selected(tests: seq<Test>, hash: string -> nat, index: nat, count: nat): seq<Test>
    requires count > 0
  {
    if tests == [] then []
    else
      var last := tests[|tests| - 1];
      Selected(tests[..|tests| - 1], hash, index, count) +
      (if Owner(hash, count, last.name) == index then [last] else [])
  }

  function Names(tests: seq<Test>): seq<string> {
    if tests == [] then [] else Names(tests[..|tests| - 1]) + [tests[|tests| - 1].name]
  }

  function ShardPattern(selected: seq<Test>): string {
    Pattern(StableSort(CodeLess, Unique(Names(selected))))
  }

  lemma {:induction false} SelectedMembers(tests: seq<Test>, hash: string -> nat, index: nat, count: nat)
    requires count > 0
    ensures forall t :: t in Selected(tests, hash, index, count) <==> t in tests && Owner(hash, count, t.name) == index
  {
    if tests != [] {
      SelectedMembers(tests[..|tests| - 1], hash, index, count);
      assert tests == tests[..|tests| - 1] + [tests[|tests| - 1]];
    }
  }

  ghost predicate Partition(parts: seq<seq<Test>>, tests: seq<Test>) {
    && (forall t :: t in tests ==> exists i :: 0 <= i < |parts| && t in parts[i])
    && (forall i :: 0 <= i < |parts| ==> forall t :: t in parts[i] ==> t in tests)
    && (forall i, j :: 0 <= i < j < |parts| ==> forall t :: t in parts[i] ==> t !in parts[j])
  }

  function Selections(tests: seq<Test>, hash: string -> nat, count: nat): seq<seq<Test>>
    requires count > 0
  {
    seq(count, (i: int) requires 0 <= i < count => Selected(tests, hash, i, count))
  }

  /** For every inventory, hash and count, the selections partition the tests. */
  lemma SelectionsPartition(tests: seq<Test>, hash: string -> nat, count: nat)
    requires count > 0
    ensures Partition(Selections(tests, hash, count), tests)
  {
    var parts := Selections(tests, hash, count);
    forall i | 0 <= i < count ensures forall t :: t in parts[i] <==> t in tests && Owner(hash, count, t.name) == i {
      SelectedMembers(tests, hash, i, count);
    }
    forall t | t in tests ensures exists i :: 0 <= i < |parts| && t in parts[i] {
      assert t in parts[Owner(hash, count, t.name)];
    }
  }

  lemma {:induction false} NamesMembers(tests: seq<Test>)
    ensures forall n :: n in Names(tests) <==> exists t :: t in tests && t.name == n
  {
    if tests != [] {
      NamesMembers(tests[..|tests| - 1]);
      assert tests == tests[..|tests| - 1] + [tests[|tests| - 1]];
    }
  }

  lemma PatternNames(tests: seq<Test>, n: string)
    ensures n in StableSort(CodeLess, Unique(Names(tests))) <==> n in Names(tests)
  {
    hide Names, StableSort, Unique;
    var unique := Unique(Names(tests));
    UniqueIsASet(Names(tests));
    assert n in unique <==> n in Elements(unique);
    assert n in Names(tests) <==> n in Elements(Names(tests));
    assert n in unique <==> n in multiset(unique);
    assert n in StableSort(CodeLess, unique) <==> n in multiset(StableSort(CodeLess, unique));
  }

  lemma TestIsNoSentinel(name: string)
    requires TestName(name)
    ensures name != NO_TEST
  {
    assert name[0] == 'T' || name[0] == 'E' || name[0] == 'F';
  }

  /** One pattern for all packages: among the inventoried tests it runs exactly the shard's
      selection, even where packages share test names. */
  lemma PatternRunsExactlyTheSelection(tests: seq<Test>, hash: string -> nat, index: nat, count: nat, t: Test)
    requires count > 0 && t in tests && forall u :: u in tests ==> TestName(u.name)
    ensures Runs(ShardPattern(Selected(tests, hash, index, count)), t.name) <==> t in Selected(tests, hash, index, count)
  {
    hide Selected, Names, StableSort, Unique, TestName, Runs, Pattern;
    var selected := Selected(tests, hash, index, count);
    SelectedMembers(tests, hash, index, count);
    var names := StableSort(CodeLess, Unique(Names(selected)));
    PatternNames(selected, t.name);
    NamesMembers(selected);
    if names == [] {
      SentinelFindsNothingElse(t.name);
      TestIsNoSentinel(t.name);
    } else {
      PatternFindsExactlyTheNames(names, t.name);
    }
  }

  // ---------- running ----------

  datatype Stage = Began | Ended

  /** Events of top-level tests; a test that ended must have a name, one that began need not. */
  predicate Reaches(e: GoEvent, stage: Stage) {
    && e.test.Some? && '/' !in e.test.value
    && match stage
       case Began => e.action == "run"
       case Ended => e.action in {"pass", "skip"} && e.test.value != ""
  }

  /** The top-level tests that reached the stage. */
  function Acted(events: seq<GoEvent>, stage: Stage): seq<Test> {
    if events == [] then []
    else
      var e := events[|events| - 1];
      Acted(events[..|events| - 1], stage) + (if Reaches(e, stage) then [Test(e.package, e.test.value)] else [])
  }

  /** A `run` event without a test cannot be read. */
  predicate Readable(events: seq<GoEvent>) {
    forall i :: 0 <= i < |events| && events[i].action == "run" ==> events[i].test.Some?
  }

  function PlanOf(tools: Toolchain, tests: seq<Test>, hash: string -> nat, index: nat, count: nat): Plan
    requires count > 0
  {
    Plan(tools, index, count, tests, Selected(tests, hash, index, count))
  }

  function FolderOf(plan: Plan, events: seq<GoEvent>, profile: Profile, digests: Digests): Folder {
    Folder(plan, Complete(digests.plan(plan), digests.profile(profile), StableSort(TestLess, Unique(Acted(events, Ended)))), profile)
  }

  /** The run did what the plan says: exactly the selected tests began, and all of them ended. */
  predicate AsPlanned(events: seq<GoEvent>, selected: seq<Test>) {
    && Readable(events)
    && Elements(Acted(events, Began)) == Elements(selected)
    && Elements(Acted(events, Ended)) == Elements(selected)
  }

  /** `shard`. `goTest` is what `go test -run` with the given pattern reports. */
  method RunShard(index: nat, count: nat, tools: Toolchain, listing: seq<GoEvent>, goTest: string -> seq<GoEvent>,
    hash: string -> nat, digests: Digests, profile: Profile) returns (r: Result<Folder>)
    requires index < count
    ensures var tests := Inventory(listing); var plan := PlanOf(tools, tests, hash, index, count);
      var events := goTest(ShardPattern(plan.selected));
      && (r.Ok? <==> tests != [] && AsPlanned(events, plan.selected))
      && (r.Ok? ==> r.value == FolderOf(plan, events, profile, digests) && Elements(r.value.complete.executed) == Elements(plan.selected))
  {
    hide Selected, StableSort, Unique, Acted, Listed, Pattern, Names;
    var tests := Inventory(listing);
    if tests == [] {
      return Err(EmptyInventory);
    }
    var plan := PlanOf(tools, tests, hash, index, count);
    var events := goTest(ShardPattern(plan.selected));
    if !Readable(events) {
      return Err(BadEvent);
    }
    var ran, ended := Acted(events, Began), Acted(events, Ended);
    if Elements(ran) != Elements(plan.selected) || Elements(ended) != Elements(plan.selected) {
      return Err(DiffersFromPlan);
    }
    SortedSetIsTheSet(ended);
    r := Ok(FolderOf(plan, events, profile, digests));
  }

  lemma SortedSetIsTheSet(tests: seq<Test>)
    ensures Elements(StableSort(TestLess, Unique(tests))) == Elements(tests)
  {
    hide StableSort, Unique;
    var unique := Unique(tests);
    UniqueIsASet(tests);
    assert forall t :: t in unique <==> t in multiset(unique);
    assert forall t :: t in StableSort(TestLess, unique) <==> t in multiset(StableSort(TestLess, unique));
    assert Elements(StableSort(TestLess, unique)) == Elements(unique);
  }

  lemma {:induction false} ListedAreTests(listing: seq<GoEvent>)
    ensures forall t :: t in Listed(listing) ==> TestName(t.name)
  {
    if listing != [] {
      ListedAreTests(listing[..|listing| - 1]);
    }
  }

  /** A go tool that runs what the pattern finds among the inventoried tests, all of which end. */
  ghost predicate Honest(goTest: string -> seq<GoEvent>, tests: seq<Test>) {
    forall p: string ::
      && Readable(goTest(p))
      && (forall t :: t in Acted(goTest(p), Began) <==> t in tests && Runs(p, t.name))
      && (forall t :: t in Acted(goTest(p), Ended) <==> t in tests && Runs(p, t.name))
  }

  /** With an honest go tool the plan of every shard is met, so no shard fails. */
  lemma HonestRunsArePlanned(listing: seq<GoEvent>, hash: string -> nat, index: nat, count: nat, goTest: string -> seq<GoEvent>)
    requires index < count && Honest(goTest, Inventory(listing))
    ensures var selected := Selected(Inventory(listing), hash, index, count);
      AsPlanned(goTest(ShardPattern(selected)), selected)
  {
    hide Selected, StableSort, Unique, Acted, Listed, Pattern, Names, Runs, TestName, ShardPattern, Owner, Readable;
    var tests := Inventory(listing);
    var selected := Selected(tests, hash, index, count);
    var p := ShardPattern(selected);
    InventoryHoldsTests(listing);
    SelectedMembers(tests, hash, index, count);
    forall t | t in tests ensures Runs(p, t.name) <==> t in selected {
      PatternRunsExactlyTheSelection(tests, hash, index, count, t);
    }
    var ran, ended := Acted(goTest(p), Began), Acted(goTest(p), Ended);
    assert forall t :: t in ran <==> t in selected;
    assert forall t :: t in ended <==> t in selected;
  }

  lemma InventoryHoldsTests(listing: seq<GoEvent>)
    ensures forall t :: t in Inventory(listing) ==> TestName(t.name)
  {
    hide StableSort, Unique, Listed, TestName;
    ListedAreTests(listing);
    SortedSetIsTheSet(Listed(listing));
    forall t | t in Inventory(listing) ensures TestName(t.name) {
      assert t in Elements(Inventory(listing));
      assert t in Elements(Listed(listing));
    }
  }
}
