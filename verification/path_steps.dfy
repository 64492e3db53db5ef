/** The path-recording traversal on values: what the two dictionary queues
    hold, what one put and one expansion do to them, and what one turn of
    the loop does to the queue and to the stored result. The traversal
    methods are proved to follow these functions step by step. */
module PathSteps {
  import opened Grammar
  import opened Queues
  import opened Paths

  /** The contents of a dictionary queue: the keys in queue order and the
      paths gathered for each. */
  datatype PathQueue = PathQueue(list: seq<Str>, dict: map<Str, seq<Path>>)

  /** The queue together with the strings stored so far. */
  datatype PathState = PathState(queue: PathQueue, out: map<Str, seq<Path>>)

  /** A put on the additive queue: a queued key gains the new paths after
      its own, a new key is appended. */
  function MergePut(q: PathQueue, key: Str, paths: seq<Path>): PathQueue
  {
    if key in q.dict then PathQueue(q.list, q.dict[key := q.dict[key] + paths])
    else PathQueue(q.list + [key], q.dict[key := paths])
  }

  /** A put on the conservative queue: a queued key keeps what it has. */
  function KeepPut(q: PathQueue, key: Str, paths: seq<Path>): PathQueue
  {
    if key in q.dict then q
    else PathQueue(q.list + [key], q.dict[key := paths])
  }

  /** The puts, in order, on the additive queue. */
  function MergeAll(q: PathQueue, puts: seq<(Str, seq<Path>)>): PathQueue
    decreases |puts|
  {
    if puts == [] then q
    else
      var last := puts[|puts| - 1];
      MergePut(MergeAll(q, puts[..|puts| - 1]), last.0, last.1)
  }

  /** The puts, in order, on the conservative queue. */
  function KeepAll(q: PathQueue, puts: seq<(Str, seq<Path>)>): PathQueue
    decreases |puts|
  {
    if puts == [] then q
    else
      var last := puts[|puts| - 1];
      KeepPut(KeepAll(q, puts[..|puts| - 1]), last.0, last.1)
  }

  /** The puts one expansion makes: for each alternative of the rule found
      at `m`, in rule-list order, the rewrite of `s` and the extensible
      paths of `s` extended by that step. */
  function Rewrites(g: Rules, depth: nat, lowMemory: bool, s: Str, m: Match, paths: seq<Path>)
    : seq<(Str, seq<Path>)>
    requires Search(g, s) == Some(m)
  {
    var alts := g[m.rule].alts;
    var avail := Available(paths, depth);
    seq(|alts|, j requires 0 <= j < |alts| =>
      (Splice(s, m, alts[j]), Extend(avail, StepFor(lowMemory, m.start, alts[j]))))
  }

  /** The queue with its front key taken. */
  function Rest(q: PathQueue): PathQueue
    requires q.list != []
  {
    PathQueue(q.list[1..], q.dict - {q.list[0]})
  }

  /** One turn of the loop over the additive queue: a terminal front string
      is stored with its paths, replacing what was stored for it; any other
      is expanded, unless none of its paths is shorter than `depth`. */
  function MergeVisit(g: Rules, depth: nat, lowMemory: bool, st: PathState): PathState
    requires st.queue.list != [] && st.queue.list[0] in st.queue.dict
  {
    var s := st.queue.list[0];
    var paths := st.queue.dict[s];
    match Search(g, s)
    case None => PathState(Rest(st.queue), st.out[s := paths])
    case Some(m) =>
      if Available(paths, depth) == [] then PathState(Rest(st.queue), st.out)
      else PathState(MergeAll(Rest(st.queue), Rewrites(g, depth, lowMemory, s, m, paths)), st.out)
  }

  /** The same turn over the conservative queue. */
  function KeepVisit(g: Rules, depth: nat, lowMemory: bool, st: PathState): PathState
    requires st.queue.list != [] && st.queue.list[0] in st.queue.dict
  {
    var s := st.queue.list[0];
    var paths := st.queue.dict[s];
    match Search(g, s)
    case None => PathState(Rest(st.queue), st.out[s := paths])
    case Some(m) =>
      if Available(paths, depth) == [] then PathState(Rest(st.queue), st.out)
      else PathState(KeepAll(Rest(st.queue), Rewrites(g, depth, lowMemory, s, m, paths)), st.out)
  }

  /** Put `j` of an expansion, and the prefix of the puts it closes. */
  lemma RewriteAt(g: Rules, depth: nat, lowMemory: bool, s: Str, m: Match, paths: seq<Path>, j: nat)
    requires Search(g, s) == Some(m) && j < |g[m.rule].alts|
    ensures var puts := Rewrites(g, depth, lowMemory, s, m, paths);
      && j < |puts|
      && puts[j] == (Splice(s, m, g[m.rule].alts[j]),
                     Extend(Available(paths, depth), StepFor(lowMemory, m.start, g[m.rule].alts[j])))
      && puts[..j + 1][..j] == puts[..j]
  {
  }

  /** The keys the puts name. */
  function PutKeys(puts: seq<(Str, seq<Path>)>): set<Str>
  {
    set i | 0 <= i < |puts| :: puts[i].0
  }

  /** The paths of every put of `key`, in put order. */
  function Gathered(puts: seq<(Str, seq<Path>)>, key: Str): seq<Path>
    decreases |puts|
  {
    if puts == [] then []
    else
      var last := puts[|puts| - 1];
      Gathered(puts[..|puts| - 1], key) + (if last.0 == key then last.1 else [])
  }

  /** The paths held for `key`, none if it is absent. */
  function Lookup(d: map<Str, seq<Path>>, key: Str): seq<Path>
  {
    if key in d then d[key] else []
  }

  /** Puts `i` is the first put of its key. */
  predicate FirstPut(puts: seq<(Str, seq<Path>)>, i: nat)
    requires i < |puts|
  {
    forall j :: 0 <= j < i ==> puts[j].0 != puts[i].0
  }

  lemma PutKeysSnoc(puts: seq<(Str, seq<Path>)>)
    requires puts != []
    ensures PutKeys(puts) == PutKeys(puts[..|puts| - 1]) + {puts[|puts| - 1].0}
  {
    var init := puts[..|puts| - 1];
    forall k | k in PutKeys(puts)
      ensures k in PutKeys(init) + {puts[|puts| - 1].0}
    {
      var i :| 0 <= i < |puts| && puts[i].0 == k;
      if i < |init| {
        assert init[i] == puts[i];
      }
    }
    forall k | k in PutKeys(init)
      ensures k in PutKeys(puts)
    {
      var i :| 0 <= i < |init| && init[i].0 == k;
      assert puts[i] == init[i];
    }
  }

  /** The additive queue loses no path: after the puts every key holds what
      it held before followed by the paths of all its puts, in put order;
      the keys are the old ones and the ones put, and new keys only join
      the end of the queue. */
  lemma {:induction false} MergeAllGathers(q: PathQueue, puts: seq<(Str, seq<Path>)>)
    ensures forall k :: Lookup(MergeAll(q, puts).dict, k) == Lookup(q.dict, k) + Gathered(puts, k)
    ensures MergeAll(q, puts).dict.Keys == q.dict.Keys + PutKeys(puts)
    ensures |q.list| <= |MergeAll(q, puts).list| && MergeAll(q, puts).list[..|q.list|] == q.list
    decreases |puts|
  {
    if puts == [] {
      forall k
        ensures Lookup(MergeAll(q, puts).dict, k) == Lookup(q.dict, k) + Gathered(puts, k)
      {
        assert Lookup(q.dict, k) + [] == Lookup(q.dict, k);
      }
      assert PutKeys(puts) == {};
    } else {
      var init := puts[..|puts| - 1];
      var last := puts[|puts| - 1];
      var mid := MergeAll(q, init);
      MergeAllGathers(q, init);
      PutKeysSnoc(puts);
      forall k
        ensures Lookup(MergeAll(q, puts).dict, k) == Lookup(q.dict, k) + Gathered(puts, k)
      {
        if k == last.0 {
          assert Lookup(MergeAll(q, puts).dict, k) == Lookup(mid.dict, k) + last.1;
        } else {
          assert Lookup(MergeAll(q, puts).dict, k) == Lookup(mid.dict, k);
          assert Gathered(puts, k) == Gathered(init, k) + [];
        }
      }
      assert MergeAll(q, puts).list[..|mid.list|] == mid.list;
      assert mid.list[..|q.list|] == q.list;
    }
  }

  /** The conservative queue keeps what was first queued: a key already
      held keeps its paths, a new key holds the paths of its first put. */
  lemma {:induction false} KeepAllKeepsFirst(q: PathQueue, puts: seq<(Str, seq<Path>)>)
    ensures KeepAll(q, puts).dict.Keys == q.dict.Keys + PutKeys(puts)
    ensures forall k | k in q.dict :: KeepAll(q, puts).dict[k] == q.dict[k]
    ensures forall i | 0 <= i < |puts| && puts[i].0 !in q.dict && FirstPut(puts, i) ::
      KeepAll(q, puts).dict[puts[i].0] == puts[i].1
    decreases |puts|
  {
    if puts == [] {
      assert PutKeys(puts) == {};
    } else {
      var init := puts[..|puts| - 1];
      var mid := KeepAll(q, init);
      KeepAllKeepsFirst(q, init);
      PutKeysSnoc(puts);
      forall i | 0 <= i < |puts| && puts[i].0 !in q.dict && FirstPut(puts, i)
        ensures KeepAll(q, puts).dict[puts[i].0] == puts[i].1
      {
        if i < |init| {
          assert init[i] == puts[i];
          assert FirstPut(init, i);
          assert puts[i].0 in mid.dict;
        }
      }
    }
  }

  /** New keys only join the end of the conservative queue. */
  lemma {:induction false} KeepAllExtends(q: PathQueue, puts: seq<(Str, seq<Path>)>)
    ensures |q.list| <= |KeepAll(q, puts).list| && KeepAll(q, puts).list[..|q.list|] == q.list
    decreases |puts|
  {
    if puts != [] {
      var mid := KeepAll(q, puts[..|puts| - 1]);
      KeepAllExtends(q, puts[..|puts| - 1]);
      assert KeepAll(q, puts).list[..|mid.list|] == mid.list;
      assert mid.list[..|q.list|] == q.list;
    }
  }

  /** Every put of an expansion is a child of the expanded string, in the
      order of the children, and carries sound paths when the string did:
      one per extensible path of the string. */
  lemma RewritesSound(g: Rules, depth: nat, lowMemory: bool, s: Str, m: Match, paths: seq<Path>)
    requires Search(g, s) == Some(m)
    requires Sound(g, depth, lowMemory, s, paths)
    ensures |Rewrites(g, depth, lowMemory, s, m, paths)| == |Children(g, s)|
    ensures forall j :: 0 <= j < |Children(g, s)| ==>
      && Rewrites(g, depth, lowMemory, s, m, paths)[j].0 == Children(g, s)[j]
      && |Rewrites(g, depth, lowMemory, s, m, paths)[j].1| == |Available(paths, depth)|
      && Sound(g, depth, lowMemory, Children(g, s)[j], Rewrites(g, depth, lowMemory, s, m, paths)[j].1)
  {
    var alts := g[m.rule].alts;
    forall j | 0 <= j < |alts|
      ensures Sound(g, depth, lowMemory, Children(g, s)[j], Rewrites(g, depth, lowMemory, s, m, paths)[j].1)
    {
      assert alts[j] in alts;
      ExtendSound(g, depth, lowMemory, s, m, paths, alts[j]);
    }
  }

  /** Each state of `trace` is one turn of the loop over the additive queue
      from the state before it; every turn takes a string from a non-empty
      queue. */
  predicate MergeTrace(g: Rules, depth: nat, lowMemory: bool, trace: seq<PathState>)
  {
    forall i :: 0 <= i < |trace| - 1 ==>
      && trace[i].queue.list != [] && trace[i].queue.list[0] in trace[i].queue.dict
      && trace[i + 1] == MergeVisit(g, depth, lowMemory, trace[i])
  }

  /** A whole run over the additive queue: from the start to an empty queue,
      with `out` stored. */
  predicate MergeRun(g: Rules, depth: nat, lowMemory: bool, trace: seq<PathState>, out: map<Str, seq<Path>>)
  {
    && trace != [] && trace[0] == Start()
    && trace[|trace| - 1] == PathState(PathQueue([], map[]), out)
    && MergeTrace(g, depth, lowMemory, trace)
  }

  /** One more turn extends a trace. */
  lemma MergeTraceSnoc(g: Rules, depth: nat, lowMemory: bool, trace: seq<PathState>, next: PathState)
    requires trace != [] && MergeTrace(g, depth, lowMemory, trace)
    requires trace[|trace| - 1].queue.list != [] && trace[|trace| - 1].queue.list[0] in trace[|trace| - 1].queue.dict
    requires next == MergeVisit(g, depth, lowMemory, trace[|trace| - 1])
    ensures MergeTrace(g, depth, lowMemory, trace + [next])
  {
    var t := trace + [next];
    forall i | 0 <= i < |t| - 1
      ensures t[i].queue.list != [] && t[i].queue.list[0] in t[i].queue.dict
      ensures t[i + 1] == MergeVisit(g, depth, lowMemory, t[i])
    {
      assert t[i] == trace[i];
    }
  }

  /** Two traces from the same state agree for as long as both go on. */
  lemma {:induction false} MergeTracesAgree(g: Rules, depth: nat, lowMemory: bool,
                                           t1: seq<PathState>, t2: seq<PathState>, i: nat)
    requires t1 != [] && t2 != [] && t1[0] == t2[0]
    requires MergeTrace(g, depth, lowMemory, t1) && MergeTrace(g, depth, lowMemory, t2)
    requires i < |t1| && i < |t2|
    ensures t1[i] == t2[i]
  {
    if i > 0 {
      MergeTracesAgree(g, depth, lowMemory, t1, t2, i - 1);
    }
  }

  /** The loop has one outcome: two whole runs store the same strings with
      the same paths. */
  lemma MergeRunUnique(g: Rules, depth: nat, lowMemory: bool,
                       t1: seq<PathState>, out1: map<Str, seq<Path>>, t2: seq<PathState>, out2: map<Str, seq<Path>>)
    requires MergeRun(g, depth, lowMemory, t1, out1) && MergeRun(g, depth, lowMemory, t2, out2)
    ensures t1 == t2 && out1 == out2
  {
    if |t1| < |t2| {
      MergeTracesAgree(g, depth, lowMemory, t1, t2, |t1| - 1);
      assert false;
    } else if |t2| < |t1| {
      MergeTracesAgree(g, depth, lowMemory, t1, t2, |t2| - 1);
      assert false;
    } else {
      forall i | 0 <= i < |t1|
        ensures t1[i] == t2[i]
      {
        MergeTracesAgree(g, depth, lowMemory, t1, t2, i);
      }
    }
  }

  /** Each state of `trace` is one turn of the loop over the conservative queue
      from the state before it; every turn takes a string from a non-empty
      queue. */
  predicate KeepTrace(g: Rules, depth: nat, lowMemory: bool, trace: seq<PathState>)
  {
    forall i :: 0 <= i < |trace| - 1 ==>
      && trace[i].queue.list != [] && trace[i].queue.list[0] in trace[i].queue.dict
      && trace[i + 1] == KeepVisit(g, depth, lowMemory, trace[i])
  }

  /** A whole run over the conservative queue: from the start to an empty queue,
      with `out` stored. */
  predicate KeepRun(g: Rules, depth: nat, lowMemory: bool, trace: seq<PathState>, out: map<Str, seq<Path>>)
  {
    && trace != [] && trace[0] == Start()
    && trace[|trace| - 1] == PathState(PathQueue([], map[]), out)
    && KeepTrace(g, depth, lowMemory, trace)
  }

  /** One more turn extends a trace. */
  lemma KeepTraceSnoc(g: Rules, depth: nat, lowMemory: bool, trace: seq<PathState>, next: PathState)
    requires trace != [] && KeepTrace(g, depth, lowMemory, trace)
    requires trace[|trace| - 1].queue.list != [] && trace[|trace| - 1].queue.list[0] in trace[|trace| - 1].queue.dict
    requires next == KeepVisit(g, depth, lowMemory, trace[|trace| - 1])
    ensures KeepTrace(g, depth, lowMemory, trace + [next])
  {
    var t := trace + [next];
    forall i | 0 <= i < |t| - 1
      ensures t[i].queue.list != [] && t[i].queue.list[0] in t[i].queue.dict
      ensures t[i + 1] == KeepVisit(g, depth, lowMemory, t[i])
    {
      assert t[i] == trace[i];
    }
  }

  /** Two traces from the same state agree for as long as both go on. */
  lemma {:induction false} KeepTracesAgree(g: Rules, depth: nat, lowMemory: bool,
                                           t1: seq<PathState>, t2: seq<PathState>, i: nat)
    requires t1 != [] && t2 != [] && t1[0] == t2[0]
    requires KeepTrace(g, depth, lowMemory, t1) && KeepTrace(g, depth, lowMemory, t2)
    requires i < |t1| && i < |t2|
    ensures t1[i] == t2[i]
  {
    if i > 0 {
      KeepTracesAgree(g, depth, lowMemory, t1, t2, i - 1);
    }
  }

  /** The loop has one outcome: two whole runs store the same strings with
      the same paths. */
  lemma KeepRunUnique(g: Rules, depth: nat, lowMemory: bool,
                       t1: seq<PathState>, out1: map<Str, seq<Path>>, t2: seq<PathState>, out2: map<Str, seq<Path>>)
    requires KeepRun(g, depth, lowMemory, t1, out1) && KeepRun(g, depth, lowMemory, t2, out2)
    ensures t1 == t2 && out1 == out2
  {
    if |t1| < |t2| {
      KeepTracesAgree(g, depth, lowMemory, t1, t2, |t1| - 1);
      assert false;
    } else if |t2| < |t1| {
      KeepTracesAgree(g, depth, lowMemory, t1, t2, |t2| - 1);
      assert false;
    } else {
      forall i | 0 <= i < |t1|
        ensures t1[i] == t2[i]
      {
        KeepTracesAgree(g, depth, lowMemory, t1, t2, i);
      }
    }
  }

  /** Where both loops start: "S" queued with the empty path, nothing stored. */
  function Start(): PathState
  {
    PathState(PathQueue(["S"], map["S" := [[]]]), map[])
  }
}
