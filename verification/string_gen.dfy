/** The breadth-first string generator: a level loop that pushes a gate
    after the strings of the current level and works until the gate comes
    back out, followed by a drain of the last level. The original runs one
    body against whichever queue and output container it is handed; here it
    is written once for each pairing the dispatcher makes. */
module StringGen {
  import opened Grammar
  import opened Queues
  import opened Levels

  /** A queue entry: a string, or the gate that closes a level. */
  datatype Item = Gate | Text(s: Str)

  function Texts(xs: seq<Str>): (r: seq<Item>)
    ensures |r| == |xs|
  {
    if xs == [] then [] else [Text(xs[0])] + Texts(xs[1..])
  }

  lemma {:induction false} TextsConcat(a: seq<Str>, b: seq<Str>)
    ensures Texts(a + b) == Texts(a) + Texts(b)
  {
    if a == [] {
      assert a + b == b;
    } else {
      assert (a + b)[0] == a[0];
      assert (a + b)[1..] == a[1..] + b;
      TextsConcat(a[1..], b);
    }
  }

  lemma TextsSnoc(a: seq<Str>, x: Str)
    ensures Texts(a + [x]) == Texts(a) + [Text(x)]
  {
    TextsConcat(a, [x]);
  }

  /** The queue during a level: what is left of the level, the gate, and
      what the level has queued so far. */
  function InLevel(pending: seq<Str>, next: seq<Str>): seq<Item>
  {
    Texts(pending) + [Gate] + Texts(next)
  }

  lemma TakeInLevel(pending: seq<Str>, next: seq<Str>)
    ensures pending == [] ==> InLevel(pending, next)[0] == Gate
    ensures pending != [] ==> InLevel(pending, next)[0] == Text(pending[0])
    ensures pending != [] ==> InLevel(pending, next)[1..] == InLevel(pending[1..], next)
  {
    if pending != [] {
      assert Texts(pending) == [Text(pending[0])] + Texts(pending[1..]);
    }
  }

  lemma TakeTexts(pending: seq<Str>)
    requires pending != []
    ensures Texts(pending)[0] == Text(pending[0]) && Texts(pending)[1..] == Texts(pending[1..])
  {
  }

  lemma PutInLevel(pending: seq<Str>, next: seq<Str>, x: Str)
    ensures InLevel(pending, next) + [Text(x)] == InLevel(pending, next + [x])
  {
    TextsSnoc(next, x);
  }

  lemma PutInLevelAll(pending: seq<Str>, next: seq<Str>, xs: seq<Str>)
    ensures InLevel(pending, next) + Texts(xs) == InLevel(pending, next + xs)
  {
    TextsConcat(next, xs);
  }

  /** Puts the leftmost rewrite of `s` with each alternative, in rule order. */
  method PutChildren(g: Rules, s: Str, m: Match, queue: Queue<Item>)
    requires Search(g, s) == Some(m)
    modifies queue
    ensures queue.list == old(queue.list) + Texts(Children(g, s))
  {
    var alts := g[m.rule].alts;
    ghost var children := Children(g, s);
    ChildrenOfMatch(g, s, m);
    for j := 0 to |alts|
      invariant queue.list == old(queue.list) + Texts(children[..j])
    {
      assert children[..j + 1] == children[..j] + [children[j]];
      TextsSnoc(children[..j], children[j]);
      queue.Put(Text(Splice(s, m, alts[j])));
    }
    assert children[..|alts|] == children;
  }

  /** Handles one string taken from a plain queue during a level: a
      terminal string is emitted, any other has its children put. */
  method ListVisit(g: Rules, s: Str, queue: Queue<Item>, out0: seq<Str>,
                   ghost pending: seq<Str>, ghost next: seq<Str>)
    returns (out: seq<Str>)
    requires queue.list == InLevel(pending, next)
    modifies queue
    ensures queue.list == InLevel(pending, next + Children(g, s))
    ensures out == out0 + Emit(Done(g), s)
  {
    out := out0;
    match Search(g, s) {
      case None =>
        out := out + [s];
        assert next + Children(g, s) == next;
      case Some(m) =>
        PutChildren(g, s, m, queue);
        PutInLevelAll(pending, next, Children(g, s));
    }
  }

  /** One level on a plain queue: takes until the gate comes back out. */
  method ListLevelLoop(g: Rules, queue: Queue<Item>, out0: seq<Str>, ghost frontier: seq<Str>)
    returns (out: seq<Str>)
    requires queue.list == Texts(frontier)
    modifies queue
    ensures queue.list == Texts(ListLevel(Kids(g), Done(g), frontier, [], out0).next)
    ensures out == ListLevel(Kids(g), Done(g), frontier, [], out0).out
  {
    queue.Put(Gate);
    assert queue.list == InLevel(frontier, []);
    out := out0;
    ghost var pending, next := frontier, [];
    while true
      invariant queue.list == InLevel(pending, next)
      invariant ListLevel(Kids(g), Done(g), pending, next, out) == ListLevel(Kids(g), Done(g), frontier, [], out0)
      decreases |pending|
    {
      TakeInLevel(pending, next);
      var item := queue.Take();
      if item.Gate? {
        break;
      }
      var s := item.s;
      out := ListVisit(g, s, queue, out, pending[1..], next);
      pending, next := pending[1..], next + Children(g, s);
    }
    assert queue.list == [Gate][1..] + Texts(next);
  }

  /** The final drain on a plain queue: takes everything that is left,
      emitting the terminal strings and discarding the rest. */
  method ListDrainLoop(g: Rules, queue: Queue<Item>, out0: seq<Str>, ghost frontier: seq<Str>)
    returns (out: seq<Str>)
    requires queue.list == Texts(frontier)
    modifies queue
    ensures queue.list == []
    ensures out == ListDrain(Done(g), frontier, out0)
  {
    out := out0;
    ghost var pending := frontier;
    var empty := queue.Empty();
    while !empty
      invariant queue.list == Texts(pending)
      invariant empty <==> pending == []
      invariant ListDrain(Done(g), pending, out) == ListDrain(Done(g), frontier, out0)
      decreases |pending|
    {
      TakeTexts(pending);
      var item := queue.Take();
      var s := item.s;
      ghost var before := out;
      if Search(g, s).None? {
        out := out + [s];
      }
      assert out == before + Emit(Done(g), s);
      pending := pending[1..];
      empty := queue.Empty();
    }
  }

  /** Plain queue, list output (repetitions stored): `depth + 1` levels,
      then a drain that keeps the terminal strings of the last level. */
  method ListStrings(g: Rules, depth: nat, queue: Queue<Item>) returns (out: seq<Str>)
    requires queue.list == []
    modifies queue
    ensures out == ListGen(g, depth)
    ensures queue.list == []
  {
    out := [];
    queue.Put(Text("S"));
    ghost var frontier: seq<Str> := ["S"];
    for i := depth + 1 downto 0
      invariant queue.list == Texts(frontier)
      invariant ListRun(Kids(g), Done(g), frontier, out, i) == ListGen(g, depth)
    {
      ghost var st := ListLevel(Kids(g), Done(g), frontier, [], out);
      out := ListLevelLoop(g, queue, out, frontier);
      frontier := st.next;
    }
    out := ListDrainLoop(g, queue, out, frontier);
  }

  // ---------------------------------------------------------------------
  // Deduplicating queue over a plain set, set output.

  function TextSet(xs: set<Str>): set<Item>
  {
    set x | x in xs :: Text(x)
  }

  /** The gate is never the wrapping of a string. */
  lemma GateNotText(xs: set<Str>)
    ensures Gate !in TextSet(xs)
  {
  }

  lemma TextSetOps(xs: set<Str>, x: Str)
    ensures Text(x) in TextSet(xs) <==> x in xs
    ensures Gate !in TextSet(xs)
    ensures TextSet(xs + {x}) == TextSet(xs) + {Text(x)}
    ensures TextSet(xs - {x}) == TextSet(xs) - {Text(x)}
  {
  }

  /** Puts the leftmost rewrites of `s` on a deduplicating queue. */
  method PutChildrenNew(g: Rules, s: Str, m: Match, queue: SetQueue<Item>,
                        ghost pending: seq<Str>, ghost p0: Pool)
    requires Search(g, s) == Some(m)
    requires queue.Valid()
    requires queue.list == InLevel(pending, p0.queue) && queue.members == TextSet(p0.queued) + {Gate}
    modifies queue
    ensures queue.Valid()
    ensures queue.list == InLevel(pending, PutAllNew(p0, Children(g, s)).queue)
    ensures queue.members == TextSet(PutAllNew(p0, Children(g, s)).queued) + {Gate}
  {
    var alts := g[m.rule].alts;
    ghost var children := Children(g, s);
    ChildrenOfMatch(g, s, m);
    for j := 0 to |alts|
      invariant queue.Valid()
      invariant queue.list == InLevel(pending, PutAllNew(p0, children[..j]).queue)
      invariant queue.members == TextSet(PutAllNew(p0, children[..j]).queued) + {Gate}
    {
      ghost var p := PutAllNew(p0, children[..j]);
      assert children[..j + 1] == children[..j] + [children[j]];
      PutAllNewAppend(p0, children[..j], children[j]);
      TextSetOps(p.queued, children[j]);
      PutInLevel(pending, p.queue, children[j]);
      queue.Put(Text(Splice(s, m, alts[j])));
    }
    assert children[..|alts|] == children;
  }

  /** Handles one string taken from a deduplicating queue during a level. */
  method SetVisit(g: Rules, s: Str, queue: SetQueue<Item>, out0: set<Str>,
                  ghost pending: seq<Str>, ghost st: SetState)
    returns (out: set<Str>)
    requires queue.Valid() && st.out == out0
    requires queue.list == InLevel(pending, st.next) && queue.members == TextSet(st.queued) + {Gate}
    modifies queue
    ensures queue.Valid()
    ensures queue.list == InLevel(pending, SetStep(Kids(g), Done(g), s, st).next)
    ensures queue.members == TextSet(SetStep(Kids(g), Done(g), s, st).queued) + {Gate}
    ensures out == SetStep(Kids(g), Done(g), s, st).out
  {
    out := out0;
    match Search(g, s) {
      case None =>
        out := out + {s};
      case Some(m) =>
        PutChildrenNew(g, s, m, queue, pending, Pool(st.next, st.queued));
    }
  }

  /** One level on a deduplicating queue with a set output. */
  method SetLevelLoop(g: Rules, queue: SetQueue<Item>, out0: set<Str>,
                      ghost frontier: seq<Str>, ghost queued0: set<Str>)
    returns (out: set<Str>)
    requires queue.Valid()
    requires queue.list == Texts(frontier) && queue.members == TextSet(queued0)
    modifies queue
    ensures queue.Valid()
    ensures queue.list == Texts(SetLevel(Kids(g), Done(g), frontier, SetState([], queued0, out0)).next)
    ensures queue.members == TextSet(SetLevel(Kids(g), Done(g), frontier, SetState([], queued0, out0)).queued)
    ensures out == SetLevel(Kids(g), Done(g), frontier, SetState([], queued0, out0)).out
  {
    GateNotText(queued0);
    queue.Put(Gate);
    assert queue.list == InLevel(frontier, []);
    out := out0;
    ghost var pending, st := frontier, SetState([], queued0, out0);
    while true
      invariant queue.Valid() && st.out == out
      invariant queue.list == InLevel(pending, st.next) && queue.members == TextSet(st.queued) + {Gate}
      invariant SetLevel(Kids(g), Done(g), pending, st) == SetLevel(Kids(g), Done(g), frontier, SetState([], queued0, out0))
      decreases |pending|
    {
      TakeInLevel(pending, st.next);
      var item := queue.Take();
      GateNotText(st.queued);
      if item.Gate? {
        break;
      }
      var s := item.s;
      TextSetOps(st.queued, s);
      st := st.(queued := st.queued - {s});
      pending := pending[1..];
      out := SetVisit(g, s, queue, out, pending, st);
      st := SetStep(Kids(g), Done(g), s, st);
    }
    assert queue.list == [Gate][1..] + Texts(st.next);
  }

  /** The final drain on a deduplicating queue with a set output. */
  method SetDrainLoop(g: Rules, queue: SetQueue<Item>, out0: set<Str>, ghost frontier: seq<Str>)
    returns (out: set<Str>)
    requires queue.Valid() && queue.list == Texts(frontier)
    modifies queue
    ensures queue.Valid() && queue.list == []
    ensures out == SetDrain(Done(g), frontier, out0)
  {
    out := out0;
    ghost var pending := frontier;
    var empty := queue.Empty();
    while !empty
      invariant queue.Valid() && queue.list == Texts(pending)
      invariant empty <==> pending == []
      invariant SetDrain(Done(g), pending, out) == SetDrain(Done(g), frontier, out0)
      decreases |pending|
    {
      TakeTexts(pending);
      var item := queue.Take();
      var s := item.s;
      if Search(g, s).None? {
        out := out + {s};
      }
      pending := pending[1..];
      empty := queue.Empty();
    }
  }

  /** Deduplicating queue over a set, set output (repetitions not stored). */
  method UniqueStrings(g: Rules, depth: nat, queue: SetQueue<Item>) returns (out: set<Str>)
    requires queue.Valid() && queue.list == [] && queue.members == {}
    modifies queue
    ensures out == SetGen(g, depth)
    ensures queue.list == []
  {
    out := {};
    queue.Put(Text("S"));
    ghost var frontier: seq<Str> := ["S"];
    ghost var queued: set<Str> := {"S"};
    assert queue.members == TextSet(queued);
    for i := depth + 1 downto 0
      invariant queue.Valid()
      invariant queue.list == Texts(frontier) && queue.members == TextSet(queued)
      invariant SetRun(Kids(g), Done(g), frontier, queued, out, i) == SetGen(g, depth)
    {
      ghost var st := SetLevel(Kids(g), Done(g), frontier, SetState([], queued, out));
      out := SetLevelLoop(g, queue, out, frontier, queued);
      frontier, queued := st.next, st.queued;
    }
    out := SetDrainLoop(g, queue, out, frontier);
  }

  // ---------------------------------------------------------------------
  // Deduplicating queue over a counting set, counting output.

  /** The counting set `d` of a queue holds, for every string, exactly the
      multiplicity `counts` gives it; the gate entry is not constrained. */
  ghost predicate Tracks(d: map<Item, nat>, counts: map<Str, nat>)
  {
    && (forall x :: Text(x) in d <==> x in counts)
    && (forall x :: x in counts ==> d[Text(x)] == counts[x])
  }

  lemma TracksPut(d: map<Item, nat>, counts: map<Str, nat>, x: Str, v: nat)
    requires Tracks(d, counts)
    ensures Tracks(d[Text(x) := v], counts[x := v])
  {
  }

  lemma TracksTake(d: map<Item, nat>, counts: map<Str, nat>, k: Item)
    requires Tracks(d, counts)
    ensures k.Text? ==> Tracks(d - {k}, counts - {k.s})
    ensures k.Gate? ==> Tracks(d - {k}, counts)
  {
  }

  lemma TracksGate(d: map<Item, nat>, counts: map<Str, nat>, v: nat)
    requires Tracks(d, counts)
    ensures Tracks(d[Gate := v], counts)
  {
  }

  /** One put on a counting deduplicating queue during a level. */
  method PutCountedItem(queue: CountingSetQueue<Item>, x: Str,
                        ghost pending: seq<Str>, ghost t: Tally, ghost c: nat)
    requires queue.Valid() && queue.members.carry.count == c
    requires queue.list == InLevel(pending, t.queue) && Tracks(queue.members.dict, t.counts)
    modifies queue, queue.members
    ensures queue.Valid()
    ensures queue.list == InLevel(pending, PutCounted(t, x, c).queue)
    ensures Tracks(queue.members.dict, PutCounted(t, x, c).counts)
  {
    ghost var v := if x in t.counts then t.counts[x] + c else c;
    TracksPut(queue.members.dict, t.counts, x, v);
    PutInLevel(pending, t.queue, x);
    queue.Put(Text(x));
  }

  /** Puts the leftmost rewrites of `s` on a counting deduplicating queue
      while the carry holds the multiplicity `c` that `s` was taken with. */
  method PutChildrenCounted(g: Rules, s: Str, m: Match, queue: CountingSetQueue<Item>,
                            ghost pending: seq<Str>, ghost t0: Tally, ghost c: nat)
    requires Search(g, s) == Some(m)
    requires queue.Valid() && queue.members.carry.count == c
    requires queue.list == InLevel(pending, t0.queue) && Tracks(queue.members.dict, t0.counts)
    modifies queue, queue.members
    ensures queue.Valid()
    ensures queue.list == InLevel(pending, PutAllCounted(t0, Children(g, s), c).queue)
    ensures Tracks(queue.members.dict, PutAllCounted(t0, Children(g, s), c).counts)
  {
    var alts := g[m.rule].alts;
    ghost var children := Children(g, s);
    ChildrenOfMatch(g, s, m);
    for j := 0 to |alts|
      invariant queue.Valid() && queue.members.carry.count == c
      invariant queue.list == InLevel(pending, PutAllCounted(t0, children[..j], c).queue)
      invariant Tracks(queue.members.dict, PutAllCounted(t0, children[..j], c).counts)
    {
      assert children[..j + 1] == children[..j] + [children[j]];
      PutAllCountedAppend(t0, children[..j], children[j], c);
      PutCountedItem(queue, Splice(s, m, alts[j]), pending, PutAllCounted(t0, children[..j], c), c);
    }
    assert children[..|alts|] == children;
  }

  /** Handles one string taken from a counting queue during a level, the
      carry holding the multiplicity `c` it was taken with. */
  method CountVisit(g: Rules, s: Str, queue: CountingSetQueue<Item>, out: CountSet<Str>,
                    ghost pending: seq<Str>, ghost st: CountState, ghost c: nat)
    requires queue.Valid() && out.carry == queue.members.carry && out.carry.count == c
    requires queue.list == InLevel(pending, st.next) && Tracks(queue.members.dict, st.counts)
    requires out.dict == st.out
    modifies queue, queue.members, out
    ensures queue.Valid()
    ensures queue.list == InLevel(pending, CountStep(Kids(g), Done(g), s, c, st).next)
    ensures Tracks(queue.members.dict, CountStep(Kids(g), Done(g), s, c, st).counts)
    ensures out.dict == CountStep(Kids(g), Done(g), s, c, st).out
  {
    match Search(g, s) {
      case None =>
        out.Insert(s);
      case Some(m) =>
        PutChildrenCounted(g, s, m, queue, pending, Tally(st.next, st.counts), c);
    }
  }

  /** One level on a counting deduplicating queue, emitting into `out`. */
  method CountLevelLoop(g: Rules, queue: CountingSetQueue<Item>, out: CountSet<Str>,
                        ghost frontier: seq<Str>, ghost counts0: map<Str, nat>, ghost out0: map<Str, nat>)
    requires queue.Valid() && out.carry == queue.members.carry
    requires queue.list == Texts(frontier) && Gate !in queue.members.dict && Tracks(queue.members.dict, counts0)
    requires out.dict == out0
    modifies queue, queue.members, queue.members.carry, out
    ensures queue.Valid()
    ensures queue.list == Texts(CountLevel(Kids(g), Done(g), frontier, CountState([], counts0, out0)).next)
    ensures Gate !in queue.members.dict && Tracks(queue.members.dict, CountLevel(Kids(g), Done(g), frontier, CountState([], counts0, out0)).counts)
    ensures out.dict == CountLevel(Kids(g), Done(g), frontier, CountState([], counts0, out0)).out
  {
    TracksGate(queue.members.dict, counts0, queue.members.carry.count);
    queue.Put(Gate);
    assert queue.list == InLevel(frontier, []);
    ghost var pending, st := frontier, CountState([], counts0, out0);
    while true
      invariant queue.Valid()
      invariant queue.list == InLevel(pending, st.next) && Tracks(queue.members.dict, st.counts)
      invariant out.dict == st.out
      invariant CountLevel(Kids(g), Done(g), pending, st) == CountLevel(Kids(g), Done(g), frontier, CountState([], counts0, out0))
      decreases |pending|
    {
      TakeInLevel(pending, st.next);
      ghost var d := queue.members.dict;
      var item := queue.Take();
      TracksTake(d, st.counts, item);
      if item.Gate? {
        break;
      }
      var s := item.s;
      ghost var c := queue.members.carry.count;
      assert c == Count(st.counts, s);
      st := st.(counts := st.counts - {s});
      pending := pending[1..];
      CountVisit(g, s, queue, out, pending, st, c);
      st := CountStep(Kids(g), Done(g), s, c, st);
    }
    assert queue.list == [Gate][1..] + Texts(st.next);
  }

  /** The final drain on a counting queue: each terminal string is inserted
      with the multiplicity it was taken with. */
  method CountDrainLoop(g: Rules, queue: CountingSetQueue<Item>, out: CountSet<Str>,
                        ghost frontier: seq<Str>, ghost counts0: map<Str, nat>, ghost out0: map<Str, nat>)
    requires queue.Valid() && out.carry == queue.members.carry
    requires queue.list == Texts(frontier) && Gate !in queue.members.dict && Tracks(queue.members.dict, counts0)
    requires out.dict == out0
    modifies queue, queue.members, queue.members.carry, out
    ensures queue.Valid() && queue.list == []
    ensures out.dict == CountDrain(Done(g), frontier, counts0, out0)
  {
    ghost var pending, counts := frontier, counts0;
    var empty := queue.Empty();
    while !empty
      invariant queue.Valid()
      invariant queue.list == Texts(pending) && Tracks(queue.members.dict, counts)
      invariant empty <==> pending == []
      invariant CountDrain(Done(g), pending, counts, out.dict) == CountDrain(Done(g), frontier, counts0, out0)
      decreases |pending|
    {
      TakeTexts(pending);
      ghost var d := queue.members.dict;
      var item := queue.Take();
      var s := item.s;
      TracksTake(d, counts, item);
      if Search(g, s).None? {
        out.Insert(s);
      }
      counts := counts - {s};
      pending := pending[1..];
      empty := queue.Empty();
    }
  }

  /** `levels` levels on a counting queue followed by the drain. */
  method CountRunLoop(g: Rules, levels: nat, queue: CountingSetQueue<Item>, out: CountSet<Str>,
                      ghost frontier0: seq<Str>, ghost counts0: map<Str, nat>, ghost out0: map<Str, nat>)
    requires queue.Valid() && out.carry == queue.members.carry
    requires queue.list == Texts(frontier0) && Gate !in queue.members.dict && Tracks(queue.members.dict, counts0)
    requires out.dict == out0
    modifies queue, queue.members, queue.members.carry, out
    ensures out.dict == CountRun(Kids(g), Done(g), frontier0, counts0, out0, levels)
  {
    ghost var frontier, counts, emitted := frontier0, counts0, out0;
    for i := levels downto 0
      invariant queue.Valid() && out.carry == queue.members.carry
      invariant queue.list == Texts(frontier) && Gate !in queue.members.dict && Tracks(queue.members.dict, counts)
      invariant out.dict == emitted
      invariant CountRun(Kids(g), Done(g), frontier, counts, emitted, i) == CountRun(Kids(g), Done(g), frontier0, counts0, out0, levels)
    {
      ghost var st := CountLevel(Kids(g), Done(g), frontier, CountState([], counts, emitted));
      CountLevelLoop(g, queue, out, frontier, counts, emitted);
      frontier, counts, emitted := st.next, st.counts, st.out;
    }
    CountDrainLoop(g, queue, out, frontier, counts, emitted);
  }

  /** Deduplicating queue over a counting set, counting output: the result
      maps each emitted string to the multiplicity it was emitted with. The
      queue's counting set and `out` share one carry, fresh at 1. */
  method CountStrings(g: Rules, depth: nat, queue: CountingSetQueue<Item>, out: CountSet<Str>)
    returns (counts: map<Str, nat>)
    requires queue.Valid() && queue.list == [] && queue.members.dict == map[]
    requires out.dict == map[] && out.carry == queue.members.carry && out.carry.count == 1
    modifies queue, queue.members, queue.members.carry, out
    ensures counts == out.dict
    ensures counts == CountGen(g, depth)
  {
    TracksPut(map[], map[], "S", 1);
    queue.Put(Text("S"));
    CountRunLoop(g, depth + 1, queue, out, ["S"], map["S" := 1], map[]);
    counts := out.dict;
  }
}
