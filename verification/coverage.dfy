/** Completeness of the path-recording generator: every terminal string
    that some leftmost derivation of at most `depth` steps reaches is
    stored. The argument follows one such derivation through the run: at
    every turn its end is stored already, or one of its forms is queued with
    a path short enough to finish it within `depth` steps. On the additive
    queue such a path is never lost. On the conservative queue a later path
    is dropped, but the queue is breadth first, so the path kept is no
    longer than the one dropped. */
module Coverage {
  import opened Grammar
  import opened Queues
  import opened Paths
  import opened PathSteps
  import opened Levels
  import opened Reachability

  /** Form `i` of `forms` is queued with path `p`, and `p` is short enough
      to finish `forms` within `depth` steps. */
  predicate Pending(st: PathState, forms: seq<Str>, depth: nat, i: int, p: Path)
  {
    && 0 <= i < |forms|
    && forms[i] in st.queue.dict && p in st.queue.dict[forms[i]]
    && |p| + (|forms| - 1 - i) <= depth
  }

  /** The end of `forms` is stored, or some form of it is still pending. */
  ghost predicate Tracked(st: PathState, forms: seq<Str>, depth: nat)
    requires forms != []
  {
    forms[|forms| - 1] in st.out || exists i, p :: Pending(st, forms, depth, i, p)
  }

  /** Every path of the puts of `key` is gathered for it. */
  lemma {:induction false} GatheredHas(puts: seq<(Str, seq<Path>)>, j: nat, k: nat)
    requires j < |puts| && k < |puts[j].1|
    ensures puts[j].1[k] in Gathered(puts, puts[j].0)
    decreases |puts|
  {
    var init := puts[..|puts| - 1];
    if j < |init| {
      assert init[j] == puts[j];
      GatheredHas(init, j, k);
    }
  }

  /** In a derivation that ends in a terminal string, a form that is not
      the end has a child, so it is not terminal and the next form is one of
      the children of the rule the search finds. */
  lemma NextForm(g: Rules, forms: seq<Str>, i: nat) returns (m: Match, j: nat)
    requires Chain(Kids(g), forms) && i < |forms| - 1
    ensures Search(g, forms[i]) == Some(m)
    ensures j < |g[m.rule].alts| && forms[i + 1] == Splice(forms[i], m, g[m.rule].alts[j])
  {
    var s := forms[i];
    assert forms[i + 1] in Kids(g)(s);
    assert forms[i + 1] in Children(g, s);
    m := Search(g, s).value;
    ChildrenOfMatch(g, s, m);
    var jj :| 0 <= jj < |Children(g, s)| && Children(g, s)[jj] == forms[i + 1];
    j := jj;
  }

  /** The child of form `i` is put with the pending path extended by one
      step. */
  lemma ExtendedPut(g: Rules, depth: nat, lowMemory: bool, s: Str, m: Match, paths: seq<Path>, j: nat, p: Path)
    returns (k: nat)
    requires Search(g, s) == Some(m) && j < |g[m.rule].alts|
    requires p in paths && |p| < depth
    ensures var puts := Rewrites(g, depth, lowMemory, s, m, paths);
      && j < |puts| && k < |puts[j].1|
      && puts[j].0 == Splice(s, m, g[m.rule].alts[j])
      && puts[j].1[k] == p + [StepFor(lowMemory, m.start, g[m.rule].alts[j])]
  {
    RewriteAt(g, depth, lowMemory, s, m, paths, j);
    var avail := Available(paths, depth);
    assert p in avail;
    var kk :| 0 <= kk < |avail| && avail[kk] == p;
    k := kk;
  }

  // ---------------------------------------------------------------------
  // The additive queue.

  /** One turn on the additive queue keeps a derivation tracked. */
  lemma MergeVisitTracks(g: Rules, depth: nat, lowMemory: bool, st: PathState, forms: seq<Str>)
    requires st.queue.list != [] && st.queue.list[0] in st.queue.dict
    requires Chain(Kids(g), forms) && Terminal(g, forms[|forms| - 1])
    requires Tracked(st, forms, depth)
    ensures Tracked(MergeVisit(g, depth, lowMemory, st), forms, depth)
  {
    var next := MergeVisit(g, depth, lowMemory, st);
    var s := st.queue.list[0];
    var paths := st.queue.dict[s];
    var rest := Rest(st.queue);
    if forms[|forms| - 1] !in st.out {
      var i, p :| Pending(st, forms, depth, i, p);
      if forms[i] != s {
        assert forms[i] in rest.dict && rest.dict[forms[i]] == st.queue.dict[forms[i]];
        if next.queue != rest {
          var m := Search(g, s).value;
          MergeAllGathers(rest, Rewrites(g, depth, lowMemory, s, m, paths));
          assert p in Lookup(next.queue.dict, forms[i]);
        }
        assert Pending(next, forms, depth, i, p);
      } else if i < |forms| - 1 {
        var q := MergeFrontPending(g, depth, lowMemory, st, forms, i, p);
        assert Pending(next, forms, depth, i + 1, q);
      }
    }
  }

  /** The pending form at the front is expanded, and its next form is then
      queued with the pending path extended by the step taken. */
  lemma MergeFrontPending(g: Rules, depth: nat, lowMemory: bool, st: PathState, forms: seq<Str>, i: nat, p: Path)
    returns (q: Path)
    requires st.queue.list != [] && st.queue.list[0] in st.queue.dict
    requires Chain(Kids(g), forms) && i < |forms| - 1 && forms[i] == st.queue.list[0]
    requires Pending(st, forms, depth, i, p)
    ensures |q| == |p| + 1 && Pending(MergeVisit(g, depth, lowMemory, st), forms, depth, i + 1, q)
  {
    var next := MergeVisit(g, depth, lowMemory, st);
    var s := st.queue.list[0];
    var paths := st.queue.dict[s];
    var m, j := NextForm(g, forms, i);
    var puts := Rewrites(g, depth, lowMemory, s, m, paths);
    var k := ExtendedPut(g, depth, lowMemory, s, m, paths, j, p);
    assert p in Available(paths, depth);
    assert next.queue == MergeAll(Rest(st.queue), puts);
    GatheredHas(puts, j, k);
    MergeAllGathers(Rest(st.queue), puts);
    q := puts[j].1[k];
    assert q in Lookup(next.queue.dict, forms[i + 1]);
  }

  /** Every state of an additive trace keeps the derivation tracked. */
  lemma {:induction false} MergeTraceTracks(g: Rules, depth: nat, lowMemory: bool, trace: seq<PathState>,
                                            forms: seq<Str>, n: nat)
    requires MergeTrace(g, depth, lowMemory, trace) && n < |trace|
    requires Chain(Kids(g), forms) && Terminal(g, forms[|forms| - 1])
    requires Tracked(trace[0], forms, depth)
    ensures Tracked(trace[n], forms, depth)
  {
    if n > 0 {
      MergeTraceTracks(g, depth, lowMemory, trace, forms, n - 1);
      MergeVisitTracks(g, depth, lowMemory, trace[n - 1], forms);
    }
  }

  /** A run over the additive queue stores every terminal string reachable
      within `depth` steps. */
  lemma MergeRunComplete(g: Rules, depth: nat, lowMemory: bool, trace: seq<PathState>,
                         out: map<Str, seq<Path>>, t: Str)
    requires MergeRun(g, depth, lowMemory, trace, out)
    requires Terminal(g, t) && ReachableWithin(Kids(g), depth, t)
    ensures t in out
  {
    var forms :| Chain(Kids(g), forms) && |forms| <= depth + 1 && forms[|forms| - 1] == t;
    assert Pending(trace[0], forms, depth, 0, []);
    MergeTraceTracks(g, depth, lowMemory, trace, forms, |trace| - 1);
  }

  // ---------------------------------------------------------------------
  // The conservative queue.

  /** The conservative queue is breadth first: every key holds one path,
      and path lengths never decrease along the queue and grow by at most
      one from front to back. */
  predicate Layered(q: PathQueue)
  {
    && Distinct(q.list) && Elems(q.list) == q.dict.Keys
    && (forall k | k in q.dict :: |q.dict[k]| == 1)
    && (forall i, j | 0 <= i <= j < |q.list| ::
          |q.dict[q.list[i]][0]| <= |q.dict[q.list[j]][0]| <= |q.dict[q.list[i]][0]| + 1)
  }

  /** Every queued path is `n - 1` or `n` steps long. */
  predicate Within(q: PathQueue, n: nat)
    requires forall k | k in q.dict :: q.dict[k] != []
  {
    forall k | k in q.dict :: n <= |q.dict[k][0]| + 1 && |q.dict[k][0]| <= n
  }

  /** Taking the front of a queue whose list and keys agree leaves a queue
      whose list and keys agree, with the other keys' entries unchanged. */
  lemma RestShape(q: PathQueue)
    requires Distinct(q.list) && Elems(q.list) == q.dict.Keys && q.list != []
    ensures Distinct(Rest(q).list) && Elems(Rest(q).list) == Rest(q).dict.Keys
    ensures forall j | 0 <= j < |Rest(q).list| :: Rest(q).list[j] == q.list[j + 1]
    ensures forall k | k in Rest(q).dict :: Rest(q).dict[k] == q.dict[k]
  {
    var r := Rest(q);
    forall k | k in r.dict
      ensures k in Elems(r.list)
    {
      var j :| 0 <= j < |q.list| && q.list[j] == k;
      assert r.list[j - 1] == k;
    }
    forall k | k in Elems(r.list)
      ensures k in r.dict
    {
      var j :| 0 <= j < |r.list| && r.list[j] == k;
      assert q.list[j + 1] == k;
    }
  }

  /** Taking the front of a breadth-first queue leaves it breadth first, and
      every remaining path is as long as the front's or one step longer. */
  lemma RestLayered(q: PathQueue)
    requires Layered(q) && q.list != []
    ensures Layered(Rest(q)) && Within(Rest(q), |q.dict[q.list[0]][0]| + 1)
  {
    RestShape(q);
    RestOrdered(q);
    RestWithin(q);
  }

  /** The order of path lengths survives the take. */
  lemma RestOrdered(q: PathQueue)
    requires Layered(q) && q.list != []
    requires forall j | 0 <= j < |Rest(q).list| :: Rest(q).list[j] == q.list[j + 1]
    requires forall k | k in Rest(q).dict :: Rest(q).dict[k] == q.dict[k]
    requires Elems(Rest(q).list) == Rest(q).dict.Keys
    ensures forall i, j | 0 <= i <= j < |Rest(q).list| ::
      |Rest(q).dict[Rest(q).list[i]][0]| <= |Rest(q).dict[Rest(q).list[j]][0]| <= |Rest(q).dict[Rest(q).list[i]][0]| + 1
  {
    var r := Rest(q);
    forall i, j | 0 <= i <= j < |r.list|
      ensures |r.dict[r.list[i]][0]| <= |r.dict[r.list[j]][0]| <= |r.dict[r.list[i]][0]| + 1
    {
      assert r.list[i] in Elems(r.list) && r.list[j] in Elems(r.list);
      assert r.list[i] == q.list[i + 1] && r.list[j] == q.list[j + 1];
    }
  }

  /** The lengths left after the take lie within one step of the front's. */
  lemma RestWithin(q: PathQueue)
    requires Layered(q) && q.list != []
    requires forall j | 0 <= j < |Rest(q).list| :: Rest(q).list[j] == q.list[j + 1]
    requires forall k | k in Rest(q).dict :: Rest(q).dict[k] == q.dict[k]
    requires Elems(Rest(q).list) == Rest(q).dict.Keys
    ensures forall k | k in Rest(q).dict :: |Rest(q).dict[k]| == 1
    ensures Within(Rest(q), |q.dict[q.list[0]][0]| + 1)
  {
    var r := Rest(q);
    forall k | k in r.dict
      ensures |q.dict[q.list[0]][0]| + 1 <= |r.dict[k][0]| + 1 <= |q.dict[q.list[0]][0]| + 2
    {
      assert k in Elems(r.list);
      var j :| 0 <= j < |r.list| && r.list[j] == k;
      assert q.list[j + 1] == k;
    }
  }

  /** Conservative puts of one-path entries `n` steps long keep the queue
      breadth first. */
  lemma {:induction false} KeepAllLayered(q: PathQueue, puts: seq<(Str, seq<Path>)>, n: nat)
    requires Layered(q) && Within(q, n)
    requires forall i | 0 <= i < |puts| :: |puts[i].1| == 1 && |puts[i].1[0]| == n
    ensures Layered(KeepAll(q, puts)) && Within(KeepAll(q, puts), n)
    decreases |puts|
  {
    if puts != [] {
      var init := puts[..|puts| - 1];
      var last := puts[|puts| - 1];
      var mid := KeepAll(q, init);
      assert forall i | 0 <= i < |init| :: init[i] == puts[i];
      KeepAllLayered(q, init, n);
      if last.0 !in mid.dict {
        var r := KeepPut(mid, last.0, last.1);
        assert r.list == mid.list + [last.0];
        forall i, j | 0 <= i <= j < |r.list|
          ensures |r.dict[r.list[i]][0]| <= |r.dict[r.list[j]][0]| <= |r.dict[r.list[i]][0]| + 1
        {
          assert r.list[i] in Elems(mid.list) + {last.0};
          if j < |mid.list| {
            assert r.list[i] == mid.list[i] && r.list[j] == mid.list[j];
          }
        }
      }
    }
  }

  /** One turn on the conservative queue keeps it breadth first. */
  lemma KeepVisitLayered(g: Rules, depth: nat, lowMemory: bool, st: PathState)
    requires st.queue.list != [] && Layered(st.queue)
    ensures Layered(KeepVisit(g, depth, lowMemory, st).queue)
  {
    var s := st.queue.list[0];
    var paths := st.queue.dict[s];
    var n := |paths[0]| + 1;
    RestLayered(st.queue);
    match Search(g, s)
    case None =>
    case Some(m) =>
      if Available(paths, depth) != [] {
        var puts := Rewrites(g, depth, lowMemory, s, m, paths);
        assert Available(paths, depth) == [paths[0]];
        KeepAllLayered(Rest(st.queue), puts, n);
      }
  }

  /** One turn on the conservative queue keeps a derivation tracked. */
  lemma KeepVisitTracks(g: Rules, depth: nat, lowMemory: bool, st: PathState, forms: seq<Str>)
    requires st.queue.list != [] && Layered(st.queue)
    requires Chain(Kids(g), forms) && Terminal(g, forms[|forms| - 1])
    requires Tracked(st, forms, depth)
    ensures Tracked(KeepVisit(g, depth, lowMemory, st), forms, depth)
  {
    var next := KeepVisit(g, depth, lowMemory, st);
    var s := st.queue.list[0];
    var paths := st.queue.dict[s];
    var rest := Rest(st.queue);
    if forms[|forms| - 1] !in st.out {
      var i, p :| Pending(st, forms, depth, i, p);
      if forms[i] != s {
        assert forms[i] in rest.dict && rest.dict[forms[i]] == st.queue.dict[forms[i]];
        if next.queue != rest {
          var m := Search(g, s).value;
          KeepAllKeepsFirst(rest, Rewrites(g, depth, lowMemory, s, m, paths));
        }
        assert Pending(next, forms, depth, i, p);
      } else if i < |forms| - 1 {
        var q := KeepFrontPending(g, depth, lowMemory, st, forms, i, p);
        assert Pending(next, forms, depth, i + 1, q);
      }
    }
  }

  /** The pending form at the front is expanded, and its next form is then
      queued with a path no longer than the pending path plus one step:
      either the path of its first put, or one queued before it. */
  lemma KeepFrontPending(g: Rules, depth: nat, lowMemory: bool, st: PathState, forms: seq<Str>, i: nat, p: Path)
    returns (q: Path)
    requires st.queue.list != [] && Layered(st.queue)
    requires Chain(Kids(g), forms) && i < |forms| - 1 && forms[i] == st.queue.list[0]
    requires Pending(st, forms, depth, i, p)
    ensures Pending(KeepVisit(g, depth, lowMemory, st), forms, depth, i + 1, q)
  {
    var next := KeepVisit(g, depth, lowMemory, st);
    var s := st.queue.list[0];
    var paths := st.queue.dict[s];
    var rest := Rest(st.queue);
    assert p == paths[0];
    var m, j := NextForm(g, forms, i);
    var puts := Rewrites(g, depth, lowMemory, s, m, paths);
    var k := ExtendedPut(g, depth, lowMemory, s, m, paths, j, p);
    assert Available(paths, depth) == [p];
    assert next.queue == KeepAll(rest, puts);
    RestLayered(st.queue);
    KeepAllLayered(rest, puts, |p| + 1);
    KeepAllKeepsFirst(rest, puts);
    assert forms[i + 1] in PutKeys(puts);
    q := next.queue.dict[forms[i + 1]][0];
  }

  /** Every state of a conservative trace is breadth first and keeps the
      derivation tracked. */
  lemma {:induction false} KeepTraceTracks(g: Rules, depth: nat, lowMemory: bool, trace: seq<PathState>,
                                           forms: seq<Str>, n: nat)
    requires KeepTrace(g, depth, lowMemory, trace) && n < |trace|
    requires Chain(Kids(g), forms) && Terminal(g, forms[|forms| - 1])
    requires Layered(trace[0].queue) && Tracked(trace[0], forms, depth)
    ensures Layered(trace[n].queue) && Tracked(trace[n], forms, depth)
  {
    if n > 0 {
      KeepTraceTracks(g, depth, lowMemory, trace, forms, n - 1);
      KeepVisitLayered(g, depth, lowMemory, trace[n - 1]);
      KeepVisitTracks(g, depth, lowMemory, trace[n - 1], forms);
    }
  }

  /** A run over the conservative queue stores every terminal string
      reachable within `depth` steps, although it keeps only the first path
      that reaches each string. */
  lemma KeepRunComplete(g: Rules, depth: nat, lowMemory: bool, trace: seq<PathState>,
                        out: map<Str, seq<Path>>, t: Str)
    requires KeepRun(g, depth, lowMemory, trace, out)
    requires Terminal(g, t) && ReachableWithin(Kids(g), depth, t)
    ensures t in out
  {
    var forms :| Chain(Kids(g), forms) && |forms| <= depth + 1 && forms[|forms| - 1] == t;
    assert Pending(trace[0], forms, depth, 0, []);
    assert Elems(trace[0].queue.list) == {"S"};
    KeepTraceTracks(g, depth, lowMemory, trace, forms, |trace| - 1);
  }
}
