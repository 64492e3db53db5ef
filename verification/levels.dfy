/** The level-by-level meaning of the string generator, as functions.
    `ListGen` is what a plain queue yields: every level in full, duplicates
    included. `CountGen` is what a deduplicating queue yields: a string that
    is still queued absorbs later arrivals (and their multiplicity), and the
    output maps each emitted string to the multiplicity it was taken with. */
module Levels {
  import opened Grammar

  /** One leftmost derivation step of the grammar, as a function value. The
      level functions below take the step and the finished test as
      parameters, so that what they say about queues never depends on how
      strings are searched and rewritten. */
  function Kids(g: Rules): Str -> seq<Str>
  {
    s => Children(g, s)
  }

  /** The grammar's finished test, as a function value. */
  function Done(g: Rules): Str -> bool
  {
    s => Terminal(g, s)
  }

  /** A finished string is emitted; any other string is not. */
  function Emit(done: Str -> bool, s: Str): seq<Str>
  {
    if done(s) then [s] else []
  }

  datatype ListState = ListState(next: seq<Str>, out: seq<Str>)

  /** One level on a plain queue: `pending` is what is left of the level
      before its gate, `next` what was queued after the gate, `out` what was
      emitted so far. Each string taken is emitted if terminal, and its
      children (none for a terminal string) are queued. */
  function ListLevel(kids: Str -> seq<Str>, done: Str -> bool, pending: seq<Str>, next: seq<Str>, out: seq<Str>): ListState
    decreases |pending|
  {
    if pending == [] then ListState(next, out)
    else ListLevel(kids, done, pending[1..], next + kids(pending[0]), out + Emit(done, pending[0]))
  }

  /** The final drain: terminal strings are emitted, the rest discarded. */
  function ListDrain(done: Str -> bool, queue: seq<Str>, out: seq<Str>): seq<Str>
    decreases |queue|
  {
    if queue == [] then out
    else ListDrain(done, queue[1..], out + Emit(done, queue[0]))
  }

  /** `levels` expanding levels starting at `frontier`, then the drain. */
  function ListRun(kids: Str -> seq<Str>, done: Str -> bool, frontier: seq<Str>, out: seq<Str>, levels: nat): seq<Str>
    decreases levels
  {
    if levels == 0 then ListDrain(done, frontier, out)
    else
      var st := ListLevel(kids, done, frontier, [], out);
      ListRun(kids, done, st.next, st.out, levels - 1)
  }

  /** Plain-queue output for maximum depth `depth`: `depth + 1` levels from
      "S" and a drain of the last one. */
  function ListGen(g: Rules, depth: nat): seq<Str>
  {
    ListRun(Kids(g), Done(g), ["S"], [], depth + 1)
  }

  // ---------------------------------------------------------------------
  // Deduplicating queue, membership only.

  /** The part of the queue after the level gate, and the strings queued
      anywhere (the membership set of the queue). */
  datatype Pool = Pool(queue: seq<Str>, queued: set<Str>)

  /** A put on a deduplicating queue: a string already queued is dropped. */
  function PutNew(p: Pool, x: Str): Pool
  {
    if x in p.queued then p else Pool(p.queue + [x], p.queued + {x})
  }

  function PutAllNew(p: Pool, xs: seq<Str>): Pool
  {
    if xs == [] then p
    else PutNew(PutAllNew(p, xs[..|xs| - 1]), xs[|xs| - 1])
  }

  lemma PutAllNewAppend(p: Pool, xs: seq<Str>, x: Str)
    ensures PutAllNew(p, xs + [x]) == PutNew(PutAllNew(p, xs), x)
  {
    assert (xs + [x])[..|xs|] == xs;
  }

  datatype SetState = SetState(next: seq<Str>, queued: set<Str>, out: set<Str>)

  /** What a string taken from a deduplicating queue does, once the take has
      dropped it from the membership set: a terminal string is added to the
      output, any other string puts its children. */
  function SetStep(kids: Str -> seq<Str>, done: Str -> bool, s: Str, st: SetState): SetState
  {
    if done(s) then st.(out := st.out + {s})
    else
      var p := PutAllNew(Pool(st.next, st.queued), kids(s));
      st.(next := p.queue, queued := p.queued)
  }

  /** One level on a deduplicating queue with a set output: `pending` is what
      is left of the level before its gate. */
  function SetLevel(kids: Str -> seq<Str>, done: Str -> bool, pending: seq<Str>, st: SetState): SetState
    decreases |pending|
  {
    if pending == [] then st
    else SetLevel(kids, done, pending[1..], SetStep(kids, done, pending[0], st.(queued := st.queued - {pending[0]})))
  }

  function SetDrain(done: Str -> bool, queue: seq<Str>, out: set<Str>): set<Str>
    decreases |queue|
  {
    if queue == [] then out
    else SetDrain(done, queue[1..], if done(queue[0]) then out + {queue[0]} else out)
  }

  function SetRun(kids: Str -> seq<Str>, done: Str -> bool, frontier: seq<Str>, queued: set<Str>, out: set<Str>,
                  levels: nat): set<Str>
    decreases levels
  {
    if levels == 0 then SetDrain(done, frontier, out)
    else
      var st := SetLevel(kids, done, frontier, SetState([], queued, out));
      SetRun(kids, done, st.next, st.queued, st.out, levels - 1)
  }

  /** Deduplicating-queue output as a set, for maximum depth `depth`. */
  function SetGen(g: Rules, depth: nat): set<Str>
  {
    SetRun(Kids(g), Done(g), ["S"], {"S"}, {}, depth + 1)
  }

  // ---------------------------------------------------------------------
  // Deduplicating queue, with multiplicities.

  function Count(counts: map<Str, nat>, s: Str): nat
  {
    if s in counts then counts[s] else 0
  }

  /** The part of the queue after the level gate, and the multiplicity of
      every queued string. */
  datatype Tally = Tally(queue: seq<Str>, counts: map<Str, nat>)

  /** A put of `x` derived `c` times: a queued string only gains `c`, a new
      one is appended with multiplicity `c`. */
  function PutCounted(t: Tally, x: Str, c: nat): (r: Tally)
  {
    if x in t.counts then Tally(t.queue, t.counts[x := t.counts[x] + c])
    else Tally(t.queue + [x], t.counts[x := c])
  }

  function PutAllCounted(t: Tally, xs: seq<Str>, c: nat): Tally
  {
    if xs == [] then t
    else PutCounted(PutAllCounted(t, xs[..|xs| - 1], c), xs[|xs| - 1], c)
  }

  lemma PutAllCountedAppend(t: Tally, xs: seq<Str>, x: Str, c: nat)
    ensures PutAllCounted(t, xs + [x], c) == PutCounted(PutAllCounted(t, xs, c), x, c)
  {
    assert (xs + [x])[..|xs|] == xs;
  }

  /** A single put adds `c` to `x` and leaves every other string alone. */
  lemma PutCountedCount(t: Tally, x: Str, c: nat, y: Str)
    ensures Count(PutCounted(t, x, c).counts, y) == Count(t.counts, y) + (if y == x then c else 0)
    ensures PutCounted(t, x, c).counts.Keys == t.counts.Keys + {x}
  {
  }

  /** The multiplicity of one string after the puts: what it held before
      plus `c` for each time it occurs in `xs`. */
  lemma {:induction false} PutAllCountedCount(t: Tally, xs: seq<Str>, c: nat, y: Str)
    ensures Count(PutAllCounted(t, xs, c).counts, y) == Count(t.counts, y) + c * multiset(xs)[y]
    decreases |xs|
  {
    if xs != [] {
      var init := xs[..|xs| - 1];
      var x := xs[|xs| - 1];
      var n := multiset(init)[y];
      var q := PutAllCounted(t, init, c);
      PutAllCountedCount(t, init, c, y);
      PutCountedCount(q, x, c, y);
      assert Count(PutAllCounted(t, xs, c).counts, y) == Count(t.counts, y) + c * n + (if y == x then c else 0);
      assert xs == init + [x];
      var k := multiset(xs)[y];
      if y == x {
        assert k == n + 1;
        MulSucc(c, n);
      } else {
        assert k == n;
      }
    }
  }

  lemma MulSucc(c: nat, n: nat)
    ensures c * (n + 1) == c * n + c
  {
  }

  /** No multiplicity is lost: after the puts every string holds what it
      held before plus `c` for each time it occurs in `xs`, and exactly the
      strings of `xs` join the queued ones. */
  lemma {:induction false} PutAllCountedAdds(t: Tally, xs: seq<Str>, c: nat)
    ensures forall y :: Count(PutAllCounted(t, xs, c).counts, y) == Count(t.counts, y) + c * multiset(xs)[y]
    ensures PutAllCounted(t, xs, c).counts.Keys == t.counts.Keys + (set x | x in xs)
    decreases |xs|
  {
    forall y
      ensures Count(PutAllCounted(t, xs, c).counts, y) == Count(t.counts, y) + c * multiset(xs)[y]
    {
      PutAllCountedCount(t, xs, c, y);
    }
    if xs != [] {
      var init := xs[..|xs| - 1];
      var x := xs[|xs| - 1];
      PutAllCountedAdds(t, init, c);
      PutCountedCount(PutAllCounted(t, init, c), x, c, x);
      assert xs == init + [x];
      assert (set y | y in xs) == (set y | y in init) + {x};
    }
  }

  datatype CountState = CountState(next: seq<Str>, counts: map<Str, nat>, out: map<Str, nat>)

  /** What a string taken with multiplicity `c` does, once the take has
      dropped it from the counts: a terminal string is emitted with `c`
      (overwriting an earlier entry), any other string puts its children
      with `c`. */
  function CountStep(kids: Str -> seq<Str>, done: Str -> bool, s: Str, c: nat, st: CountState): CountState
  {
    if done(s) then st.(out := st.out[s := c])
    else
      var t := PutAllCounted(Tally(st.next, st.counts), kids(s), c);
      st.(next := t.queue, counts := t.counts)
  }

  /** One level on a deduplicating queue with multiplicities: `pending` is
      what is left of the level before its gate. */
  function CountLevel(kids: Str -> seq<Str>, done: Str -> bool, pending: seq<Str>, st: CountState): CountState
    decreases |pending|
  {
    if pending == [] then st
    else
      var s := pending[0];
      CountLevel(kids, done, pending[1..], CountStep(kids, done, s, Count(st.counts, s), st.(counts := st.counts - {s})))
  }

  /** The final drain: terminal strings are emitted with their multiplicity,
      the rest are discarded. */
  function CountDrain(done: Str -> bool, queue: seq<Str>, counts: map<Str, nat>, out: map<Str, nat>): map<Str, nat>
    decreases |queue|
  {
    if queue == [] then out
    else
      var s := queue[0];
      var rest := counts - {s};
      if done(s) then CountDrain(done, queue[1..], rest, out[s := Count(counts, s)])
      else CountDrain(done, queue[1..], rest, out)
  }

  function CountRun(kids: Str -> seq<Str>, done: Str -> bool, frontier: seq<Str>, counts: map<Str, nat>,
                    out: map<Str, nat>, levels: nat): map<Str, nat>
    decreases levels
  {
    if levels == 0 then CountDrain(done, frontier, counts, out)
    else
      var st := CountLevel(kids, done, frontier, CountState([], counts, out));
      CountRun(kids, done, st.next, st.counts, st.out, levels - 1)
  }

  /** Deduplicating-queue output for maximum depth `depth`: "S" enters with
      multiplicity 1. */
  function CountGen(g: Rules, depth: nat): map<Str, nat>
  {
    CountRun(Kids(g), Done(g), ["S"], map["S" := 1], map[], depth + 1)
  }
}
