/** Worked runs of the generator on three small grammars: the one-rule
    grammar, the binary-strings grammar of the command-line program, and a
    grammar that reaches the same sentence at two depths. */
module WorkedRuns {
  import opened Grammar
  import opened Levels
  import opened DerivationGen

  /** S -> a */
  const Single: Rules := [Rule("S", ["a"])]

  /** S -> 0A | 1B, A -> 0AA | 1S | 1, B -> 1BB | 0S | 0 */
  const Binary: Rules := [Rule("S", ["0A", "1B"]), Rule("A", ["0AA", "1S", "1"]), Rule("B", ["1BB", "0S", "0"])]

  /** S -> a | A, A -> a: "a" is derived in one step and again in two. */
  const Detour: Rules := [Rule("S", ["a", "A"]), Rule("A", ["a"])]

  lemma SingleSteps()
    ensures !Done(Single)("S") && Kids(Single)("S") == ["a"]
    ensures Done(Single)("a") && Kids(Single)("a") == []
  {
    assert OccursAt("S", "S", 0);
    assert Search(Single, "S") == Some(Match(0, 1, 0));
    assert Splice("S", Match(0, 1, 0), "a") == "a";
    assert !OccursAt("S", "a", 0);
    assert Search(Single, "a") == None;
  }

  lemma BinarySteps()
    ensures !Done(Binary)("S") && Kids(Binary)("S") == ["0A", "1B"]
    ensures !Done(Binary)("0A") && !Done(Binary)("1B")
  {
    assert OccursAt("S", "S", 0);
    assert Search(Binary, "S") == Some(Match(0, 1, 0));
    assert Splice("S", Match(0, 1, 0), "0A") == "0A";
    assert Splice("S", Match(0, 1, 0), "1B") == "1B";
    assert KeyAt(Binary, "0A", 1, 1);
    assert KeyAt(Binary, "1B", 1, 2);
  }

  lemma DetourSteps()
    ensures !Done(Detour)("S") && Kids(Detour)("S") == ["a", "A"]
    ensures !Done(Detour)("A") && Kids(Detour)("A") == ["a"]
    ensures Done(Detour)("a") && Kids(Detour)("a") == []
  {
    assert OccursAt("S", "S", 0);
    assert Search(Detour, "S") == Some(Match(0, 1, 0));
    assert Splice("S", Match(0, 1, 0), "a") == "a";
    assert Splice("S", Match(0, 1, 0), "A") == "A";
    assert OccursAt("A", "A", 0) && !OccursAt("S", "A", 0);
    assert Search(Detour, "A") == Some(Match(0, 1, 1));
    assert Splice("A", Match(0, 1, 1), "a") == "a";
    assert !OccursAt("S", "a", 0) && !OccursAt("A", "a", 0);
    assert Search(Detour, "a") == None;
  }

  /** A deduplicating put of a one-element list is a single put. */
  lemma PutNewOne(p: Pool, x: Str)
    ensures PutAllNew(p, [x]) == PutNew(p, x)
  {
    assert [x][..0] == [];
  }

  lemma PutNewTwo(p: Pool, x: Str, y: Str)
    ensures PutAllNew(p, [x, y]) == PutNew(PutNew(p, x), y)
  {
    assert [x, y][..1] == [x];
    PutNewOne(p, x);
  }

  /** A counted put of a one-element list is a single put. */
  lemma PutCountedOne(t: Tally, x: Str, c: nat)
    ensures PutAllCounted(t, [x], c) == PutCounted(t, x, c)
  {
    assert [x][..0] == [];
  }

  lemma PutCountedTwo(t: Tally, x: Str, y: Str, c: nat)
    ensures PutAllCounted(t, [x, y], c) == PutCounted(PutCounted(t, x, c), y, c)
  {
    assert [x, y][..1] == [x];
    PutCountedOne(t, x, c);
  }

  /** One level from "S" whose only child `x` is finished, then the drain. */
  lemma {:induction false} RunsOneChild(kids: Str -> seq<Str>, done: Str -> bool, x: Str)
    requires !done("S") && kids("S") == [x] && done(x) && kids(x) == []
    ensures ListRun(kids, done, ["S"], [], 1) == [x]
    ensures SetRun(kids, done, ["S"], {"S"}, {}, 1) == {x}
    ensures CountRun(kids, done, ["S"], map["S" := 1], map[], 1) == map[x := 1]
  {
    assert ["S"][1..] == [] && [x][1..] == [];
    assert ListLevel(kids, done, ["S"], [], []) == ListLevel(kids, done, [], [x], []);
    assert ListDrain(done, [x], []) == ListDrain(done, [], [x]);

    PutNewOne(Pool([], {}), x);
    assert {"S"} - {"S"} == {};
    assert SetStep(kids, done, "S", SetState([], {}, {})) == SetState([x], {x}, {});
    assert SetLevel(kids, done, ["S"], SetState([], {"S"}, {})) == SetLevel(kids, done, [], SetState([x], {x}, {}));
    assert SetDrain(done, [x], {}) == SetDrain(done, [], {x});

    PutCountedOne(Tally([], map[]), x, 1);
    assert map["S" := 1] - {"S"} == map[];
    assert CountStep(kids, done, "S", 1, CountState([], map[], map[])) == CountState([x], map[x := 1], map[]);
    assert CountLevel(kids, done, ["S"], CountState([], map["S" := 1], map[]))
        == CountLevel(kids, done, [], CountState([x], map[x := 1], map[]));
    assert map[x := 1] - {x} == map[];
    assert CountDrain(done, [x], map[x := 1], map[]) == CountDrain(done, [], map[], map[x := 1]);
  }

  /** One level from "S" whose two children are both unfinished, then the
      drain: nothing is emitted. */
  lemma {:induction false} RunsNoSentence(kids: Str -> seq<Str>, done: Str -> bool, x: Str, y: Str)
    requires !done("S") && kids("S") == [x, y] && !done(x) && !done(y) && x != y
    ensures ListRun(kids, done, ["S"], [], 1) == []
    ensures SetRun(kids, done, ["S"], {"S"}, {}, 1) == {}
    ensures CountRun(kids, done, ["S"], map["S" := 1], map[], 1) == map[]
  {
    assert ["S"][1..] == [] && [x, y][1..] == [y] && [y][1..] == [];
    assert ListLevel(kids, done, ["S"], [], []) == ListLevel(kids, done, [], [x, y], []);
    assert ListDrain(done, [x, y], []) == ListDrain(done, [y], []) == ListDrain(done, [], []);

    PutNewTwo(Pool([], {}), x, y);
    assert {"S"} - {"S"} == {};
    assert SetStep(kids, done, "S", SetState([], {}, {})) == SetState([x, y], {x, y}, {});
    assert SetLevel(kids, done, ["S"], SetState([], {"S"}, {}))
        == SetLevel(kids, done, [], SetState([x, y], {x, y}, {}));
    assert SetDrain(done, [x, y], {}) == SetDrain(done, [y], {}) == SetDrain(done, [], {});

    PutCountedTwo(Tally([], map[]), x, y, 1);
    assert map["S" := 1] - {"S"} == map[];
    assert CountStep(kids, done, "S", 1, CountState([], map[], map[])) == CountState([x, y], map[x := 1, y := 1], map[]);
    assert CountLevel(kids, done, ["S"], CountState([], map["S" := 1], map[]))
        == CountLevel(kids, done, [], CountState([x, y], map[x := 1, y := 1], map[]));
    var rest := map[x := 1, y := 1] - {x};
    assert CountDrain(done, [x, y], map[x := 1, y := 1], map[]) == CountDrain(done, [y], rest, map[]);
    assert CountDrain(done, [y], rest, map[]) == CountDrain(done, [], rest - {y}, map[]);
  }

  /** Two levels from "S" -> x | a, a -> x with x finished: a plain queue
      emits x at the second level and again at the drain. */
  lemma {:induction false} ListRunsDetour(kids: Str -> seq<Str>, done: Str -> bool, x: Str, a: Str)
    requires !done("S") && kids("S") == [x, a] && !done(a) && kids(a) == [x] && done(x) && kids(x) == []
    requires x != a
    ensures ListRun(kids, done, ["S"], [], 2) == [x, x]
  {
    assert ["S"][1..] == [] && [x, a][1..] == [a] && [a][1..] == [] && [x][1..] == [];
    assert ListLevel(kids, done, ["S"], [], []) == ListLevel(kids, done, [], [x, a], []);
    assert Emit(done, x) == [x] && Emit(done, a) == [];
    assert [] + kids(x) == [] && [] + Emit(done, x) == [x];
    assert ListLevel(kids, done, [x, a], [], []) == ListLevel(kids, done, [a], [], [x]);
    assert [] + kids(a) == [x] && [x] + Emit(done, a) == [x];
    assert ListLevel(kids, done, [a], [], [x]) == ListLevel(kids, done, [], [x], [x]);
    assert ListDrain(done, [x], [x]) == ListDrain(done, [], [x, x]);
  }

  lemma {:induction false} SetRunsDetour(kids: Str -> seq<Str>, done: Str -> bool, x: Str, a: Str)
    requires !done("S") && kids("S") == [x, a] && !done(a) && kids(a) == [x] && done(x) && kids(x) == []
    requires x != a
    ensures SetRun(kids, done, ["S"], {"S"}, {}, 2) == {x}
  {
    assert ["S"][1..] == [] && [x, a][1..] == [a] && [a][1..] == [] && [x][1..] == [];
    PutNewTwo(Pool([], {}), x, a);
    PutNewOne(Pool([], {}), x);
    assert {"S"} - {"S"} == {};
    assert SetStep(kids, done, "S", SetState([], {}, {})) == SetState([x, a], {x, a}, {});
    assert SetLevel(kids, done, ["S"], SetState([], {"S"}, {}))
        == SetLevel(kids, done, [], SetState([x, a], {x, a}, {}));
    assert {x, a} - {x} == {a} && {a} - {a} == {};
    assert SetStep(kids, done, x, SetState([], {a}, {})) == SetState([], {a}, {x});
    assert SetStep(kids, done, a, SetState([], {}, {x})) == SetState([x], {x}, {x});
    assert SetLevel(kids, done, [x, a], SetState([], {x, a}, {}))
        == SetLevel(kids, done, [a], SetState([], {a}, {x}));
    assert SetLevel(kids, done, [a], SetState([], {a}, {x}))
        == SetLevel(kids, done, [], SetState([x], {x}, {x}));
    assert SetDrain(done, [x], {x}) == SetDrain(done, [], {x});
  }

  /** The same two levels with multiplicities: x is taken with multiplicity 1
      at the second level and again at the drain, and the second emission
      replaces the first. */
  lemma {:induction false} CountRunsDetour(kids: Str -> seq<Str>, done: Str -> bool, x: Str, a: Str)
    requires !done("S") && kids("S") == [x, a] && !done(a) && kids(a) == [x] && done(x) && kids(x) == []
    requires x != a
    ensures CountRun(kids, done, ["S"], map["S" := 1], map[], 2) == map[x := 1]
  {
    assert ["S"][1..] == [] && [x, a][1..] == [a] && [a][1..] == [] && [x][1..] == [];
    PutCountedTwo(Tally([], map[]), x, a, 1);
    PutCountedOne(Tally([], map[]), x, 1);
    assert map["S" := 1] - {"S"} == map[];
    assert CountStep(kids, done, "S", 1, CountState([], map[], map[])) == CountState([x, a], map[x := 1, a := 1], map[]);
    assert CountLevel(kids, done, ["S"], CountState([], map["S" := 1], map[]))
        == CountLevel(kids, done, [], CountState([x, a], map[x := 1, a := 1], map[]));
    assert map[x := 1, a := 1] - {x} == map[a := 1] && map[a := 1] - {a} == map[];
    assert CountStep(kids, done, x, 1, CountState([], map[a := 1], map[])) == CountState([], map[a := 1], map[x := 1]);
    assert CountStep(kids, done, a, 1, CountState([], map[], map[x := 1])) == CountState([x], map[x := 1], map[x := 1]);
    assert CountLevel(kids, done, [x, a], CountState([], map[x := 1, a := 1], map[]))
        == CountLevel(kids, done, [a], CountState([], map[a := 1], map[x := 1]));
    assert CountLevel(kids, done, [a], CountState([], map[a := 1], map[x := 1]))
        == CountLevel(kids, done, [], CountState([x], map[x := 1], map[x := 1]));
    assert map[x := 1] - {x} == map[];
    assert CountDrain(done, [x], map[x := 1], map[x := 1]) == CountDrain(done, [], map[], map[x := 1]);
  }

  /** With S -> a and maximum depth 0, every mode yields the one sentence "a". */
  lemma SingleAtDepthZero()
    ensures ListGen(Single, 0) == ["a"]
    ensures SetGen(Single, 0) == {"a"}
    ensures CountGen(Single, 0) == map["a" := 1]
  {
    SingleSteps();
    RunsOneChild(Kids(Single), Done(Single), "a");
  }

  /** With the binary-strings grammar and maximum depth 0, nothing is
      generated: both children of "S" still hold a nonterminal at the drain;
      the derivation traversal stores nothing either. */
  lemma BinaryAtDepthZero()
    ensures ListGen(Binary, 0) == []
    ensures SetGen(Binary, 0) == {}
    ensures CountGen(Binary, 0) == map[]
    ensures DepthZero(Binary) == map[]
  {
    BinarySteps();
    RunsNoSentence(Kids(Binary), Done(Binary), "0A", "1B");
  }

  /** The list mode reports "a" twice (once per level that reached it) while
      the count mode reports it with multiplicity 1: the emission of the
      second arrival overwrites the first instead of adding to it. */
  lemma DetourCountOverwrites()
    ensures ListGen(Detour, 1) == ["a", "a"]
    ensures SetGen(Detour, 1) == {"a"}
    ensures CountGen(Detour, 1) == map["a" := 1]
  {
    DetourSteps();
    ListRunsDetour(Kids(Detour), Done(Detour), "a", "A");
    SetRunsDetour(Kids(Detour), Done(Detour), "a", "A");
    CountRunsDetour(Kids(Detour), Done(Detour), "a", "A");
  }
}
