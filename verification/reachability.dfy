/** What the string generator computes, stated without queues: the strings
    reachable from "S" by a given number of leftmost derivation steps, and
    the finished ones among them. The level arithmetic is stated for any
    one-step function `kids` and any finished-test `done`; `Kids(g)` and
    `Done(g)` are the grammar's own, and the level-by-level functions of
    `Levels` are shown to produce exactly these levels. */
module Reachability {
  import opened Grammar
  import opened Paths
  import opened Levels
  import opened Queues

  /** The children of every string of `xs`, in order. */
  function Expand(kids: Str -> seq<Str>, xs: seq<Str>): seq<Str>
  {
    if xs == [] then [] else kids(xs[0]) + Expand(kids, xs[1..])
  }

  /** The finished strings of `xs`, in order. */
  function Keep(done: Str -> bool, xs: seq<Str>): seq<Str>
  {
    if xs == [] then [] else (if done(xs[0]) then [xs[0]] else []) + Keep(done, xs[1..])
  }

  /** `xs` advanced `n` levels: one entry per way of reaching a string, so a
      string reached in two ways appears twice. */
  function Iterate(kids: Str -> seq<Str>, xs: seq<Str>, n: nat): seq<Str>
    decreases n
  {
    if n == 0 then xs else Iterate(kids, Expand(kids, xs), n - 1)
  }

  /** The finished strings of `frontier` and of the `levels` levels after
      it, level by level. */
  function Harvest(kids: Str -> seq<Str>, done: Str -> bool, frontier: seq<Str>, levels: nat): seq<Str>
    decreases levels
  {
    Keep(done, frontier) + if levels == 0 then [] else Harvest(kids, done, Expand(kids, frontier), levels - 1)
  }

  /** The strings of `frontier` and of the `levels` levels after it. */
  function Span(kids: Str -> seq<Str>, frontier: seq<Str>, levels: nat): set<Str>
    decreases levels
  {
    Elems(frontier) + if levels == 0 then {} else Span(kids, Expand(kids, frontier), levels - 1)
  }

  /** A derivation from "S": every form is one step from the one before. */
  predicate Chain(kids: Str -> seq<Str>, forms: seq<Str>)
  {
    && |forms| > 0
    && forms[0] == "S"
    && forall i :: 0 <= i < |forms| - 1 ==> forms[i + 1] in kids(forms[i])
  }

  /** `x` is reached from "S" by at most `n` steps. */
  ghost predicate ReachableWithin(kids: Str -> seq<Str>, n: nat, x: Str)
  {
    exists forms {:trigger Chain(kids, forms)} :: Chain(kids, forms) && |forms| <= n + 1 && forms[|forms| - 1] == x
  }

  lemma Assoc<T>(a: seq<T>, b: seq<T>, c: seq<T>)
    ensures a + b + c == a + (b + c)
  {
  }

  lemma {:induction false} KeepMembers(done: Str -> bool, xs: seq<Str>, x: Str)
    ensures x in Keep(done, xs) <==> x in xs && done(x)
  {
    if xs != [] {
      KeepMembers(done, xs[1..], x);
      assert xs == [xs[0]] + xs[1..];
    }
  }

  lemma {:induction false} ChildInExpand(kids: Str -> seq<Str>, xs: seq<Str>, y: Str, x: Str)
    requires y in xs && x in kids(y)
    ensures x in Expand(kids, xs)
  {
    if y != xs[0] {
      ChildInExpand(kids, xs[1..], y, x);
    }
  }

  /** The string of `xs` that a member of `Expand(kids, xs)` is a child of. */
  lemma {:induction false} ExpandParent(kids: Str -> seq<Str>, xs: seq<Str>, x: Str) returns (y: Str)
    requires x in Expand(kids, xs)
    ensures y in xs && x in kids(y)
  {
    if x in kids(xs[0]) {
      y := xs[0];
    } else {
      y := ExpandParent(kids, xs[1..], x);
    }
  }

  lemma {:induction false} IterateLast(kids: Str -> seq<Str>, xs: seq<Str>, n: nat)
    requires n > 0
    ensures Iterate(kids, xs, n) == Expand(kids, Iterate(kids, xs, n - 1))
    decreases n
  {
    if n > 1 {
      IterateLast(kids, Expand(kids, xs), n - 1);
    }
  }

  lemma {:induction false} HarvestMembers(kids: Str -> seq<Str>, done: Str -> bool, frontier: seq<Str>,
                                          levels: nat, x: Str)
    ensures x in Harvest(kids, done, frontier, levels) <==> done(x) && x in Span(kids, frontier, levels)
    decreases levels
  {
    KeepMembers(done, frontier, x);
    if levels > 0 {
      HarvestMembers(kids, done, Expand(kids, frontier), levels - 1, x);
    }
  }

  /** A string spanned by `levels` levels lies on one of them. */
  lemma {:induction false} SpanLevel(kids: Str -> seq<Str>, frontier: seq<Str>, levels: nat, x: Str)
    returns (k: nat)
    requires x in Span(kids, frontier, levels)
    ensures k <= levels && x in Iterate(kids, frontier, k)
    decreases levels
  {
    if x in Elems(frontier) {
      k := 0;
    } else {
      var k' := SpanLevel(kids, Expand(kids, frontier), levels - 1, x);
      k := k' + 1;
    }
  }

  /** A string on one of the `levels` levels is spanned by them. */
  lemma {:induction false} LevelInSpan(kids: Str -> seq<Str>, frontier: seq<Str>, levels: nat, k: nat, x: Str)
    requires k <= levels && x in Iterate(kids, frontier, k)
    ensures x in Span(kids, frontier, levels)
    decreases levels
  {
    if k > 0 {
      LevelInSpan(kids, Expand(kids, frontier), levels - 1, k - 1, x);
    }
  }

  /** A child of a string spanned by `n` levels from `root` is spanned by
      `n + 1` levels. */
  lemma SpanChild(kids: Str -> seq<Str>, root: seq<Str>, n: nat, y: Str, x: Str)
    requires y in Span(kids, root, n) && x in kids(y)
    ensures x in Span(kids, root, n + 1)
  {
    var k := SpanLevel(kids, root, n, y);
    IterateLast(kids, root, k + 1);
    ChildInExpand(kids, Iterate(kids, root, k), y, x);
    LevelInSpan(kids, root, n + 1, k + 1, x);
  }

  /** A string first spanned at `n + 1` levels is a child of one spanned at
      `n`. */
  lemma SpanStep(kids: Str -> seq<Str>, root: seq<Str>, n: nat, x: Str) returns (y: Str)
    requires x in Span(kids, root, n + 1) && x !in Span(kids, root, n)
    ensures y in Span(kids, root, n) && x in kids(y)
  {
    var k := SpanLevel(kids, root, n + 1, x);
    if k <= n {
      LevelInSpan(kids, root, n, k, x);
      assert false;
    }
    IterateLast(kids, root, n + 1);
    y := ExpandParent(kids, Iterate(kids, root, n), x);
    LevelInSpan(kids, root, n, n, y);
  }

  /** More levels span more strings. */
  lemma SpanMono(kids: Str -> seq<Str>, root: seq<Str>, n: nat, m: nat, x: Str)
    requires n <= m && x in Span(kids, root, n)
    ensures x in Span(kids, root, m)
  {
    var k := SpanLevel(kids, root, n, x);
    LevelInSpan(kids, root, m, k, x);
  }

  /** A string on level `n` ends a derivation of `n` steps. */
  lemma {:induction false} ChainSound(kids: Str -> seq<Str>, n: nat, x: Str) returns (forms: seq<Str>)
    requires x in Iterate(kids, ["S"], n)
    ensures Chain(kids, forms) && |forms| == n + 1 && forms[n] == x
  {
    if n == 0 {
      forms := ["S"];
    } else {
      IterateLast(kids, ["S"], n);
      var y := ExpandParent(kids, Iterate(kids, ["S"], n - 1), x);
      var prefix := ChainSound(kids, n - 1, y);
      forms := prefix + [x];
      forall i | 0 <= i < |forms| - 1
        ensures forms[i + 1] in kids(forms[i])
      {
        if i < n - 1 {
          assert forms[i] == prefix[i] && forms[i + 1] == prefix[i + 1];
        }
      }
    }
  }

  /** A derivation of `n` steps ends on level `n`. */
  lemma {:induction false} ChainComplete(kids: Str -> seq<Str>, forms: seq<Str>)
    requires Chain(kids, forms)
    ensures forms[|forms| - 1] in Iterate(kids, ["S"], |forms| - 1)
    decreases |forms|
  {
    var n := |forms| - 1;
    if n > 0 {
      var prefix := forms[..n];
      assert Chain(kids, prefix) by {
        forall i | 0 <= i < |prefix| - 1
          ensures prefix[i + 1] in kids(prefix[i])
        {
          assert prefix[i] == forms[i] && prefix[i + 1] == forms[i + 1];
        }
      }
      ChainComplete(kids, prefix);
      IterateLast(kids, ["S"], n);
      ChildInExpand(kids, Iterate(kids, ["S"], n - 1), forms[n - 1], forms[n]);
    }
  }

  /** The strings spanned by `n` levels from "S" are exactly those reached
      by at most `n` steps. */
  lemma SpanReachable(kids: Str -> seq<Str>, n: nat, x: Str)
    ensures x in Span(kids, ["S"], n) <==> ReachableWithin(kids, n, x)
  {
    if x in Span(kids, ["S"], n) {
      var k := SpanLevel(kids, ["S"], n, x);
      var forms := ChainSound(kids, k, x);
      assert Chain(kids, forms) && |forms| <= n + 1 && forms[|forms| - 1] == x;
    }
    if forms :| Chain(kids, forms) && |forms| <= n + 1 && forms[|forms| - 1] == x {
      ChainComplete(kids, forms);
      LevelInSpan(kids, ["S"], n, |forms| - 1, x);
    }
  }

  /** The finished strings of the levels from "S" to level `levels` are
      exactly the finished strings reached by at most `levels` steps. */
  lemma HarvestReachable(kids: Str -> seq<Str>, done: Str -> bool, levels: nat, x: Str)
    ensures x in Harvest(kids, done, ["S"], levels) <==> done(x) && ReachableWithin(kids, levels, x)
  {
    HarvestMembers(kids, done, ["S"], levels, x);
    SpanReachable(kids, levels, x);
  }

  // ---------------------------------------------------------------------
  // The plain queue, level by level.

  /** One plain-queue level emits the finished strings of what it takes
      and queues the children of all of them, in order. */
  lemma {:induction false} ListLevelExpands(kids: Str -> seq<Str>, done: Str -> bool, pending: seq<Str>,
                                            next: seq<Str>, out: seq<Str>)
    ensures ListLevel(kids, done, pending, next, out) ==
      ListState(next + Expand(kids, pending), out + Keep(done, pending))
    decreases |pending|
  {
    if pending != [] {
      var c := kids(pending[0]);
      var e := Emit(done, pending[0]);
      ListLevelExpands(kids, done, pending[1..], next + c, out + e);
      assert Expand(kids, pending) == c + Expand(kids, pending[1..]);
      assert Keep(done, pending) == e + Keep(done, pending[1..]);
      Assoc(next, c, Expand(kids, pending[1..]));
      Assoc(out, e, Keep(done, pending[1..]));
    } else {
      assert next + [] == next && out + [] == out;
    }
  }

  lemma {:induction false} ListDrainEmits(done: Str -> bool, queue: seq<Str>, out: seq<Str>)
    ensures ListDrain(done, queue, out) == out + Keep(done, queue)
    decreases |queue|
  {
    if queue != [] {
      var e := Emit(done, queue[0]);
      ListDrainEmits(done, queue[1..], out + e);
      assert Keep(done, queue) == e + Keep(done, queue[1..]);
      Assoc(out, e, Keep(done, queue[1..]));
    } else {
      assert out + [] == out;
    }
  }

  /** The run of `levels` levels and the drain emits, after `out`, the
      finished strings of the frontier and of the levels after it. */
  lemma {:induction false} ListRunHarvests(kids: Str -> seq<Str>, done: Str -> bool, frontier: seq<Str>,
                                           out: seq<Str>, levels: nat)
    ensures ListRun(kids, done, frontier, out, levels) == out + Harvest(kids, done, frontier, levels)
    decreases levels
  {
    if levels == 0 {
      ListDrainEmits(done, frontier, out);
      assert Harvest(kids, done, frontier, 0) == Keep(done, frontier) + [];
    } else {
      var st := ListLevel(kids, done, frontier, [], out);
      ListLevelExpands(kids, done, frontier, [], out);
      assert st.next == Expand(kids, frontier) by {
        assert [] + Expand(kids, frontier) == Expand(kids, frontier);
      }
      ListRunHarvests(kids, done, st.next, st.out, levels - 1);
      Assoc(out, Keep(done, frontier), Harvest(kids, done, st.next, levels - 1));
    }
  }

  /** The plain-queue output for depth `D` is the terminal strings of
      levels 0 to D + 1, level by level. */
  lemma ListGenHarvests(g: Rules, depth: nat)
    ensures ListGen(g, depth) == Harvest(Kids(g), Done(g), ["S"], depth + 1)
  {
    ListRunHarvests(Kids(g), Done(g), ["S"], [], depth + 1);
    assert [] + Harvest(Kids(g), Done(g), ["S"], depth + 1) == Harvest(Kids(g), Done(g), ["S"], depth + 1);
  }

  /** What the plain queue yields for depth `D`: exactly the terminal
      strings that some leftmost derivation of at most D + 1 steps reaches. */
  lemma ListGenMembers(g: Rules, depth: nat, x: Str)
    ensures x in ListGen(g, depth) <==> Terminal(g, x) && ReachableWithin(Kids(g), depth + 1, x)
  {
    ListGenHarvests(g, depth);
    HarvestReachable(Kids(g), Done(g), depth + 1, x);
    assert Done(g)(x) == Terminal(g, x);
  }

  // ---------------------------------------------------------------------
  // One step of a derivation is one bare step of a stored path.

  /** What one step replays to is a child. */
  lemma StepIsChild(g: Rules, s: Str, step: Step, x: Str)
    requires Apply(g, s, step) == Some(x)
    ensures x in Children(g, s)
  {
    var m := Search(g, s).value;
    ChildrenOfMatch(g, s, m);
    var alts := g[m.rule].alts;
    var j :| 0 <= j < |alts| && alts[j] == step.alt;
    assert Children(g, s)[j] == x;
  }

  /** Every child is what some bare step replays to. */
  lemma ChildIsStep(g: Rules, s: Str, x: Str) returns (alt: Str)
    requires x in Children(g, s)
    ensures Apply(g, s, Bare(alt)) == Some(x)
  {
    var m := Search(g, s).value;
    ChildrenOfMatch(g, s, m);
    var alts := g[m.rule].alts;
    var j :| 0 <= j < |alts| && Children(g, s)[j] == x;
    alt := alts[j];
  }

  /** A path that replays is a derivation from "S" with one step per
      recorded step. */
  lemma {:induction false} ReplayChain(g: Rules, p: Path, x: Str) returns (forms: seq<Str>)
    requires Replay(g, p) == Some(x)
    ensures Chain(Kids(g), forms) && |forms| == |p| + 1 && forms[|p|] == x
    decreases |p|
  {
    if p == [] {
      forms := ["S"];
    } else {
      var init := p[..|p| - 1];
      var s := Replay(g, init).value;
      var before := ReplayChain(g, init, s);
      StepIsChild(g, s, p[|p| - 1], x);
      forms := before + [x];
      forall i | 0 <= i < |forms| - 1
        ensures forms[i + 1] in Kids(g)(forms[i])
      {
        if i < |before| - 1 {
          assert forms[i] == before[i] && forms[i + 1] == before[i + 1];
        }
      }
    }
  }

  /** Every derivation from "S" is recorded by a low-memory path that
      replays to its last form. */
  lemma {:induction false} ChainReplays(g: Rules, forms: seq<Str>) returns (p: Path)
    requires Chain(Kids(g), forms)
    ensures |p| == |forms| - 1 && Shaped(p, true) && Replay(g, p) == Some(forms[|forms| - 1])
    decreases |forms|
  {
    if |forms| == 1 {
      p := [];
    } else {
      var n := |forms| - 1;
      var prefix := forms[..n];
      assert Chain(Kids(g), prefix) by {
        forall i | 0 <= i < |prefix| - 1
          ensures prefix[i + 1] in Kids(g)(prefix[i])
        {
          assert prefix[i] == forms[i] && prefix[i + 1] == forms[i + 1];
        }
      }
      var before := ChainReplays(g, prefix);
      assert forms[n] in Kids(g)(forms[n - 1]);
      var alt := ChildIsStep(g, forms[n - 1], forms[n]);
      p := before + [Bare(alt)];
      ReplaySnoc(g, before, Bare(alt));
      assert forall i :: 0 <= i < |before| ==> p[i] == before[i];
    }
  }

  /** The strings the stored paths lead to are the strings reachable from
      "S": a path of length `n` that replays reaches its string within `n`
      steps, and every string reachable within `n` steps has a low-memory
      path of at most `n` steps. */
  lemma ReplayReachable(g: Rules, p: Path, x: Str)
    requires Replay(g, p) == Some(x)
    ensures ReachableWithin(Kids(g), |p|, x)
  {
    var forms := ReplayChain(g, p, x);
  }

  lemma ReachableReplays(g: Rules, n: nat, x: Str) returns (p: Path)
    requires ReachableWithin(Kids(g), n, x)
    ensures |p| <= n && Shaped(p, true) && Replay(g, p) == Some(x)
  {
    var forms :| Chain(Kids(g), forms) && |forms| <= n + 1 && forms[|forms| - 1] == x;
    p := ChainReplays(g, forms);
  }
}
