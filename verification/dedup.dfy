/** What the deduplicating queue yields, compared with the plain queue.
    Dropping a put of a string that is still queued never loses a string:
    the dropped copy is taken later on the same level or on the next one,
    so it is expanded no later than the plain queue would expand it. And
    nothing new appears: everything queued lies within the levels already
    run. So the set output holds exactly the strings the plain queue lists.
    The counting queue moves exactly like the set queue, so its output has
    exactly those strings as keys. Everything is stated for any one-step
    function `kids` and finished-test `done` in which finished strings have
    no children, and then for the grammar's own. */
module Dedup {
  import opened Grammar
  import opened Queues
  import opened Levels
  import opened Reachability

  /** Finished strings are not rewritten further. */
  ghost predicate Stops(kids: Str -> seq<Str>, done: Str -> bool)
  {
    forall s :: done(s) ==> kids(s) == []
  }

  /** A terminal string has no leftmost rewrite. */
  lemma GrammarStops(g: Rules)
    ensures Stops(Kids(g), Done(g))
  {
    forall s | Done(g)(s)
      ensures Kids(g)(s) == []
    {
      assert Search(g, s).None?;
    }
  }

  lemma ElemsAppend(a: seq<Str>, b: seq<Str>)
    ensures Elems(a + b) == Elems(a) + Elems(b)
  {
  }

  /** A put of several strings on a deduplicating queue only appends, only
      appends strings it was given, marks all of them queued, and each of
      them ends up queued before or appended. */
  lemma {:induction false} PutAllNewGrows(p: Pool, xs: seq<Str>)
    ensures var r := PutAllNew(p, xs);
      && Elems(p.queue) <= Elems(r.queue) <= Elems(p.queue) + Elems(xs)
      && r.queued == p.queued + Elems(xs)
      && Elems(xs) <= p.queued + Elems(r.queue)
    decreases |xs|
  {
    if xs != [] {
      var init := xs[..|xs| - 1];
      var x := xs[|xs| - 1];
      PutAllNewGrows(p, init);
      assert xs == init + [x];
      ElemsAppend(init, [x]);
      var q := PutAllNew(p, init);
      ElemsAppend(q.queue, [x]);
    }
  }

  /** What one take does, while every string marked queued lies in the
      rest of the level (`rest`) or after the gate. */
  lemma SetStepFacts(kids: Str -> seq<Str>, done: Str -> bool, s: Str, st: SetState, rest: seq<Str>)
    requires st.queued <= Elems(rest) + Elems(st.next)
    ensures var r := SetStep(kids, done, s, st);
      && r.queued <= Elems(rest) + Elems(r.next)
      && Elems(st.next) <= Elems(r.next) <= Elems(st.next) + Elems(kids(s))
      && r.out == st.out + (if done(s) then {s} else {})
      && (!done(s) ==> Elems(kids(s)) <= Elems(rest) + Elems(r.next))
  {
    if !done(s) {
      PutAllNewGrows(Pool(st.next, st.queued), kids(s));
    }
  }

  /** One level on a deduplicating queue: the strings marked queued at its
      end are all after the gate; it queues only children of what it took;
      it emits exactly the finished strings it took; and every child of
      every unfinished string it took is either taken on this level or
      queued. */
  lemma {:induction false} SetLevelFacts(kids: Str -> seq<Str>, done: Str -> bool, pending: seq<Str>,
                                         st: SetState)
    requires st.queued <= Elems(pending) + Elems(st.next)
    ensures var r := SetLevel(kids, done, pending, st);
      && r.queued <= Elems(r.next)
      && Elems(st.next) <= Elems(r.next) <= Elems(st.next) + Elems(Expand(kids, pending))
      && r.out == st.out + Elems(Keep(done, pending))
      && forall y | y in pending && !done(y) :: Elems(kids(y)) <= Elems(pending) + Elems(r.next)
    decreases |pending|
  {
    if pending != [] {
      var s := pending[0];
      var rest := pending[1..];
      assert pending == [s] + rest;
      ElemsAppend([s], rest);
      var st1 := st.(queued := st.queued - {s});
      SetStepFacts(kids, done, s, st1, rest);
      var st2 := SetStep(kids, done, s, st1);
      SetLevelFacts(kids, done, rest, st2);
      assert Expand(kids, pending) == kids(s) + Expand(kids, rest);
      ElemsAppend(kids(s), Expand(kids, rest));
      var emitted := if done(s) then [s] else [];
      assert Keep(done, pending) == emitted + Keep(done, rest);
      ElemsAppend(emitted, Keep(done, rest));
    }
  }

  lemma {:induction false} SetDrainEmits(done: Str -> bool, queue: seq<Str>, out: set<Str>)
    ensures SetDrain(done, queue, out) == out + Elems(Keep(done, queue))
    decreases |queue|
  {
    if queue != [] {
      var s := queue[0];
      var emitted := if done(s) then [s] else [];
      assert Keep(done, queue) == emitted + Keep(done, queue[1..]);
      ElemsAppend(emitted, Keep(done, queue[1..]));
      if done(s) {
        SetDrainEmits(done, queue[1..], out + {s});
      } else {
        SetDrainEmits(done, queue[1..], out);
      }
    }
  }

  /** Every string of `out` is finished and within `n` levels from `root`. */
  predicate OnlyReached(kids: Str -> seq<Str>, done: Str -> bool, root: seq<Str>, out: set<Str>, n: nat)
  {
    forall y | y in out :: done(y) && y in Span(kids, root, n)
  }

  /** Every finished string within `n` levels from `root` is in `out`. */
  predicate AllReached(kids: Str -> seq<Str>, done: Str -> bool, root: seq<Str>, out: set<Str>, n: nat)
  {
    forall x | x in Span(kids, root, n) && done(x) :: x in out
  }

  /** Where a run stands after `k` levels, for soundness: what is marked
      queued is queued, and everything queued or output lies within `k`
      levels. */
  predicate Bounded(kids: Str -> seq<Str>, done: Str -> bool, root: seq<Str>,
                    frontier: seq<Str>, queued: set<Str>, out: set<Str>, k: nat)
  {
    && queued <= Elems(frontier)
    && Elems(frontier) <= Span(kids, root, k)
    && OnlyReached(kids, done, root, out, k)
  }

  /** Where a run stands after `k` levels, for completeness: `taken` is what
      the earlier levels took; every child of an unfinished taken string is
      taken or queued, every finished taken string is output, and every
      string within `k` levels is taken or queued. */
  predicate Lossless(kids: Str -> seq<Str>, done: Str -> bool, root: seq<Str>,
                     frontier: seq<Str>, queued: set<Str>, out: set<Str>, k: nat, taken: set<Str>)
  {
    && queued <= Elems(frontier)
    && (forall y | y in taken && !done(y) :: Elems(kids(y)) <= taken + Elems(frontier))
    && (forall y | y in taken && done(y) :: y in out)
    && Span(kids, root, k) <= taken + Elems(frontier)
  }

  /** The drain outputs only finished strings of the frontier. */
  lemma SetDrainSound(kids: Str -> seq<Str>, done: Str -> bool, root: seq<Str>,
                      frontier: seq<Str>, queued: set<Str>, out: set<Str>, k: nat)
    requires Bounded(kids, done, root, frontier, queued, out, k)
    ensures OnlyReached(kids, done, root, SetDrain(done, frontier, out), k)
  {
    SetDrainEmits(done, frontier, out);
    forall y | y in Keep(done, frontier)
      ensures done(y) && y in Span(kids, root, k)
    {
      KeepMembers(done, frontier, y);
    }
  }

  /** The drain outputs every finished string taken before or still queued. */
  lemma SetDrainComplete(kids: Str -> seq<Str>, done: Str -> bool, root: seq<Str>,
                         frontier: seq<Str>, queued: set<Str>, out: set<Str>, k: nat, taken: set<Str>)
    requires Lossless(kids, done, root, frontier, queued, out, k, taken)
    ensures AllReached(kids, done, root, SetDrain(done, frontier, out), k)
  {
    SetDrainEmits(done, frontier, out);
    forall x | x in Span(kids, root, k) && done(x)
      ensures x in SetDrain(done, frontier, out)
    {
      KeepMembers(done, frontier, x);
    }
  }

  /** One level keeps the run within the levels: from a frontier within `k`
      levels it queues strings within `k + 1` levels and outputs finished
      strings within them. */
  lemma SetLevelSound(kids: Str -> seq<Str>, done: Str -> bool, root: seq<Str>,
                      frontier: seq<Str>, queued: set<Str>, out: set<Str>, k: nat)
    requires Bounded(kids, done, root, frontier, queued, out, k)
    ensures var st := SetLevel(kids, done, frontier, SetState([], queued, out));
      Bounded(kids, done, root, st.next, st.queued, st.out, k + 1)
  {
    var st := SetLevel(kids, done, frontier, SetState([], queued, out));
    SetLevelFacts(kids, done, frontier, SetState([], queued, out));
    assert Elems<Str>([]) == {};
    forall x | x in Elems(st.next)
      ensures x in Span(kids, root, k + 1)
    {
      var y := ExpandParent(kids, frontier, x);
      SpanChild(kids, root, k, y, x);
    }
    forall y | y in st.out
      ensures done(y) && y in Span(kids, root, k + 1)
    {
      if y !in out {
        KeepMembers(done, frontier, y);
      }
      SpanMono(kids, root, k, k + 1, y);
    }
  }

  /** Nothing outside the levels: a run of `levels` more levels from a
      position within `k` levels outputs only finished strings within
      `k + levels` levels. */
  lemma {:induction false} SetRunSound(kids: Str -> seq<Str>, done: Str -> bool, root: seq<Str>,
                                       frontier: seq<Str>, queued: set<Str>, out: set<Str>, levels: nat, k: nat)
    requires Bounded(kids, done, root, frontier, queued, out, k)
    ensures OnlyReached(kids, done, root, SetRun(kids, done, frontier, queued, out, levels), k + levels)
    decreases levels
  {
    if levels == 0 {
      SetDrainSound(kids, done, root, frontier, queued, out, k);
    } else {
      var st := SetLevel(kids, done, frontier, SetState([], queued, out));
      SetLevelSound(kids, done, root, frontier, queued, out, k);
      SetRunSound(kids, done, root, st.next, st.queued, st.out, levels - 1, k + 1);
      assert k + 1 + (levels - 1) == k + levels;
    }
  }

  /** One level keeps nothing lost, with the frontier added to what was
      taken. */
  lemma SetLevelComplete(kids: Str -> seq<Str>, done: Str -> bool, root: seq<Str>,
                         frontier: seq<Str>, queued: set<Str>, out: set<Str>, k: nat, taken: set<Str>)
    requires Stops(kids, done)
    requires Lossless(kids, done, root, frontier, queued, out, k, taken)
    ensures var st := SetLevel(kids, done, frontier, SetState([], queued, out));
      Lossless(kids, done, root, st.next, st.queued, st.out, k + 1, taken + Elems(frontier))
  {
    var st := SetLevel(kids, done, frontier, SetState([], queued, out));
    SetLevelFacts(kids, done, frontier, SetState([], queued, out));
    var taken' := taken + Elems(frontier);
    forall y | y in taken' && done(y)
      ensures y in st.out
    {
      KeepMembers(done, frontier, y);
    }
    forall x | x in Span(kids, root, k + 1)
      ensures x in taken' + Elems(st.next)
    {
      if x !in Span(kids, root, k) {
        var y := SpanStep(kids, root, k, x);
        assert x in Elems(kids(y));
      }
    }
  }

  /** Nothing lost: a run of `levels` more levels from a lossless position
      after `k` levels outputs every finished string within `k + levels`
      levels. */
  lemma {:induction false} SetRunComplete(kids: Str -> seq<Str>, done: Str -> bool, root: seq<Str>,
                                          frontier: seq<Str>, queued: set<Str>, out: set<Str>, levels: nat,
                                          k: nat, taken: set<Str>)
    requires Stops(kids, done)
    requires Lossless(kids, done, root, frontier, queued, out, k, taken)
    ensures AllReached(kids, done, root, SetRun(kids, done, frontier, queued, out, levels), k + levels)
    decreases levels
  {
    if levels == 0 {
      SetDrainComplete(kids, done, root, frontier, queued, out, k, taken);
    } else {
      var st := SetLevel(kids, done, frontier, SetState([], queued, out));
      SetLevelComplete(kids, done, root, frontier, queued, out, k, taken);
      assert SetRun(kids, done, frontier, queued, out, levels)
          == SetRun(kids, done, st.next, st.queued, st.out, levels - 1);
      SetRunComplete(kids, done, root, st.next, st.queued, st.out, levels - 1, k + 1, taken + Elems(frontier));
      assert k + 1 + (levels - 1) == k + levels;
    }
  }

  /** A deduplicating run of `levels` levels from "S" and its drain output
      exactly the finished strings reached by at most `levels` steps. */
  lemma SetRunMembers(kids: Str -> seq<Str>, done: Str -> bool, levels: nat, x: Str)
    requires Stops(kids, done)
    ensures x in SetRun(kids, done, ["S"], {"S"}, {}, levels) <==> done(x) && ReachableWithin(kids, levels, x)
  {
    assert Span(kids, ["S"], 0) == {"S"};
    SetRunSound(kids, done, ["S"], ["S"], {"S"}, {}, levels, 0);
    SetRunComplete(kids, done, ["S"], ["S"], {"S"}, {}, levels, 0, {});
    assert 0 + levels == levels;
    SpanReachable(kids, levels, x);
  }

  /** What the deduplicating queue yields as a set for depth `D`: exactly
      the terminal strings that some leftmost derivation of at most D + 1
      steps reaches. */
  lemma SetGenMembers(g: Rules, depth: nat, x: Str)
    ensures x in SetGen(g, depth) <==> Terminal(g, x) && ReachableWithin(Kids(g), depth + 1, x)
  {
    GrammarStops(g);
    SetRunMembers(Kids(g), Done(g), depth + 1, x);
    assert Done(g)(x) == Terminal(g, x);
  }

  /** Deduplication changes how often a string is listed, never whether. */
  lemma SetGenIsListed(g: Rules, depth: nat)
    ensures SetGen(g, depth) == Elems(ListGen(g, depth))
  {
    forall x
      ensures x in SetGen(g, depth) <==> x in ListGen(g, depth)
    {
      SetGenMembers(g, depth, x);
      ListGenMembers(g, depth, x);
    }
  }

  // ---------------------------------------------------------------------
  // The counting queue moves like the set queue.

  /** A counting state and a set state that agree on the queue, on which
      strings are queued and on which strings are output. */
  predicate Mirrors(cst: CountState, sst: SetState)
  {
    cst.next == sst.next && cst.counts.Keys == sst.queued && cst.out.Keys == sst.out
  }

  /** Counting puts append exactly where deduplicating puts do, and mark the
      same strings queued. */
  lemma {:induction false} PutAllCountedMirrors(t: Tally, xs: seq<Str>, c: nat)
    ensures PutAllCounted(t, xs, c).queue == PutAllNew(Pool(t.queue, t.counts.Keys), xs).queue
    ensures PutAllCounted(t, xs, c).counts.Keys == PutAllNew(Pool(t.queue, t.counts.Keys), xs).queued
    decreases |xs|
  {
    if xs != [] {
      PutAllCountedMirrors(t, xs[..|xs| - 1], c);
    }
  }

  lemma CountStepMirrors(kids: Str -> seq<Str>, done: Str -> bool, s: Str, c: nat, cst: CountState, sst: SetState)
    requires Mirrors(cst, sst)
    ensures Mirrors(CountStep(kids, done, s, c, cst), SetStep(kids, done, s, sst))
  {
    if !done(s) {
      PutAllCountedMirrors(Tally(cst.next, cst.counts), kids(s), c);
    }
  }

  lemma {:induction false} CountLevelMirrors(kids: Str -> seq<Str>, done: Str -> bool, pending: seq<Str>,
                                             cst: CountState, sst: SetState)
    requires Mirrors(cst, sst)
    ensures Mirrors(CountLevel(kids, done, pending, cst), SetLevel(kids, done, pending, sst))
    decreases |pending|
  {
    if pending != [] {
      var s := pending[0];
      var cst1 := cst.(counts := cst.counts - {s});
      var sst1 := sst.(queued := sst.queued - {s});
      assert Mirrors(cst1, sst1);
      var c := Count(cst.counts, s);
      CountStepMirrors(kids, done, s, c, cst1, sst1);
      CountLevelMirrors(kids, done, pending[1..], CountStep(kids, done, s, c, cst1), SetStep(kids, done, s, sst1));
    }
  }

  lemma {:induction false} CountDrainMirrors(done: Str -> bool, queue: seq<Str>, counts: map<Str, nat>,
                                             out: map<Str, nat>, sout: set<Str>)
    requires out.Keys == sout
    ensures CountDrain(done, queue, counts, out).Keys == SetDrain(done, queue, sout)
    decreases |queue|
  {
    if queue != [] {
      var s := queue[0];
      if done(s) {
        CountDrainMirrors(done, queue[1..], counts - {s}, out[s := Count(counts, s)], sout + {s});
      } else {
        CountDrainMirrors(done, queue[1..], counts - {s}, out, sout);
      }
    }
  }

  lemma {:induction false} CountRunMirrors(kids: Str -> seq<Str>, done: Str -> bool, frontier: seq<Str>,
                                           counts: map<Str, nat>, out: map<Str, nat>,
                                           queued: set<Str>, sout: set<Str>, levels: nat)
    requires counts.Keys == queued && out.Keys == sout
    ensures CountRun(kids, done, frontier, counts, out, levels).Keys == SetRun(kids, done, frontier, queued, sout, levels)
    decreases levels
  {
    if levels == 0 {
      CountDrainMirrors(done, frontier, counts, out, sout);
    } else {
      var cst := CountLevel(kids, done, frontier, CountState([], counts, out));
      var sst := SetLevel(kids, done, frontier, SetState([], queued, sout));
      CountLevelMirrors(kids, done, frontier, CountState([], counts, out), SetState([], queued, sout));
      CountRunMirrors(kids, done, cst.next, cst.counts, cst.out, sst.queued, sst.out, levels - 1);
    }
  }

  /** The counting output for depth `D` has as keys exactly the strings of
      the set output, so exactly the terminal strings that some leftmost
      derivation of at most D + 1 steps reaches. */
  lemma CountGenKeys(g: Rules, depth: nat)
    ensures CountGen(g, depth).Keys == SetGen(g, depth)
    ensures forall x :: x in CountGen(g, depth) <==> Terminal(g, x) && ReachableWithin(Kids(g), depth + 1, x)
  {
    var none: map<Str, nat> := map[];
    assert map["S" := 1].Keys == {"S"} && none.Keys == {};
    CountRunMirrors(Kids(g), Done(g), ["S"], map["S" := 1], map[], {"S"}, {}, depth + 1);
    forall x
      ensures x in CountGen(g, depth) <==> Terminal(g, x) && ReachableWithin(Kids(g), depth + 1, x)
    {
      SetGenMembers(g, depth, x);
    }
  }
}
