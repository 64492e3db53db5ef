/** The path-recording generator: a queue of strings, each with the paths
    that reached it. A terminal string taken from the queue is stored with
    its paths (replacing what was stored for it); any other string is
    rewritten at its leftmost occurrence with every alternative, carrying
    along only the paths that are still shorter than the maximum depth, each
    extended by the step just taken. The original runs one body against
    either dictionary queue; here it is written once for each. */
module DerivationGen {
  import opened Grammar
  import opened Queues
  import opened Paths
  import opened Potential
  import opened PathSteps
  import Levels
  import Reachability
  import Dedup
  import Coverage

  /** Every queued (or stored) string has at least one path, and all its
      paths are sound. */
  predicate AllSound(g: Rules, depth: nat, lowMemory: bool, d: map<Str, seq<Path>>)
  {
    forall k | k in d :: d[k] != [] && Sound(g, depth, lowMemory, k, d[k])
  }

  /** What a run with maximum depth 0 stores: "S" with its empty path if it
      is already terminal, and nothing otherwise. */
  function DepthZero(g: Rules): map<Str, seq<Path>>
  {
    if Terminal(g, "S") then map["S" := [[]]] else map[]
  }

  /** Every string stored with sound paths is one the string generator
      yields for the same maximum depth, with or without repetitions: a
      path of at most `depth` steps reaches it within `depth + 1` levels. */
  lemma StoredAreGenerated(g: Rules, depth: nat, lowMemory: bool, out: map<Str, seq<Path>>)
    requires AllSound(g, depth, lowMemory, out)
    requires forall k | k in out :: Terminal(g, k)
    ensures forall k | k in out :: k in Levels.SetGen(g, depth) && k in Levels.ListGen(g, depth)
  {
    forall k | k in out
      ensures k in Levels.SetGen(g, depth) && k in Levels.ListGen(g, depth)
    {
      var p := out[k][0];
      assert p in out[k];
      var forms := Reachability.ReplayChain(g, p, k);
      assert Reachability.ReachableWithin(Levels.Kids(g), depth + 1, k);
      Dedup.SetGenMembers(g, depth, k);
      Reachability.ListGenMembers(g, depth, k);
    }
  }

  /** Every string stored with sound paths is reached from "S" within
      `depth` steps: by the derivation that any of its paths replays. */
  lemma StoredAreReachable(g: Rules, depth: nat, lowMemory: bool, out: map<Str, seq<Path>>)
    requires AllSound(g, depth, lowMemory, out)
    ensures forall k | k in out :: Reachability.ReachableWithin(Levels.Kids(g), depth, k)
  {
    forall k | k in out
      ensures Reachability.ReachableWithin(Levels.Kids(g), depth, k)
    {
      var p := out[k][0];
      assert p in out[k];
      var forms := Reachability.ReplayChain(g, p, k);
      assert Reachability.Chain(Levels.Kids(g), forms) && |forms| <= depth + 1;
    }
  }

  /** A complete run over the additive queue that stores only terminal
      strings with sound paths stores exactly the terminal strings that
      some leftmost derivation of at most `depth` steps reaches. */
  lemma MergeStoredExactly(g: Rules, depth: nat, lowMemory: bool, trace: seq<PathState>, out: map<Str, seq<Path>>)
    requires MergeRun(g, depth, lowMemory, trace, out)
    requires AllSound(g, depth, lowMemory, out) && forall k | k in out :: Terminal(g, k)
    ensures forall t :: t in out <==> Terminal(g, t) && Reachability.ReachableWithin(Levels.Kids(g), depth, t)
  {
    StoredAreReachable(g, depth, lowMemory, out);
    forall t | Terminal(g, t) && Reachability.ReachableWithin(Levels.Kids(g), depth, t)
      ensures t in out
    {
      Coverage.MergeRunComplete(g, depth, lowMemory, trace, out, t);
    }
  }

  /** The same for the conservative queue: keeping only the first path of
      each string loses no string. */
  lemma KeepStoredExactly(g: Rules, depth: nat, lowMemory: bool, trace: seq<PathState>, out: map<Str, seq<Path>>)
    requires KeepRun(g, depth, lowMemory, trace, out)
    requires AllSound(g, depth, lowMemory, out) && forall k | k in out :: Terminal(g, k)
    ensures forall t :: t in out <==> Terminal(g, t) && Reachability.ReachableWithin(Levels.Kids(g), depth, t)
  {
    StoredAreReachable(g, depth, lowMemory, out);
    forall t | Terminal(g, t) && Reachability.ReachableWithin(Levels.Kids(g), depth, t)
      ensures t in out
    {
      Coverage.KeepRunComplete(g, depth, lowMemory, trace, out, t);
    }
  }

  lemma MulCancel(b: nat, x: nat, y: nat)
    requires b >= 1 && b * x == b * y
    ensures x == y
  {
  }

  lemma MulLess(a: nat, b: nat, e: nat)
    requires a < b && e >= 1
    ensures a * e < b * e
  {
  }

  /** One put of a string with sound paths on an additive queue: the
      queue weight grows by at most the weight of the paths. */
  method PutOneAdditive(g: Rules, depth: nat, lowMemory: bool, key: Str, derivations: seq<Path>,
                        queue: AdditiveDictQueue<Str, Path>, ghost b: nat)
    requires derivations != [] && Sound(g, depth, lowMemory, key, derivations)
    requires queue.Valid() && AllSound(g, depth, lowMemory, queue.dict)
    modifies queue
    ensures queue.Valid() && AllSound(g, depth, lowMemory, queue.dict)
    ensures PathQueue(queue.list, queue.dict) ==
      MergePut(PathQueue(old(queue.list), old(queue.dict)), key, derivations)
    ensures QueueWeight(b, depth, queue.list, queue.dict) <=
      old(QueueWeight(b, depth, queue.list, queue.dict)) + Weight(b, depth, derivations)
  {
    ghost var list, dict := queue.list, queue.dict;
    if key in dict {
      assert key in Elems(list);
      QueueWeightMerge(b, depth, list, dict, key, derivations);
    } else {
      QueueWeightFrame(b, depth, list, dict, key, derivations);
      QueueWeightSnoc(b, depth, list, dict[key := derivations], key);
    }
    queue.Put((key, derivations));
  }

  /** One put on a conservative queue: a string already queued keeps the
      paths it was queued with. */
  method PutOneConservative(g: Rules, depth: nat, lowMemory: bool, key: Str, derivations: seq<Path>,
                            queue: ConservativeDictQueue<Str, seq<Path>>, ghost b: nat)
    requires |derivations| == 1 && Sound(g, depth, lowMemory, key, derivations)
    requires queue.Valid() && AllSound(g, depth, lowMemory, queue.dict)
    requires forall k | k in queue.dict :: |queue.dict[k]| == 1
    modifies queue
    ensures queue.Valid() && AllSound(g, depth, lowMemory, queue.dict)
    ensures forall k | k in queue.dict :: |queue.dict[k]| == 1
    ensures PathQueue(queue.list, queue.dict) ==
      KeepPut(PathQueue(old(queue.list), old(queue.dict)), key, derivations)
    ensures QueueWeight(b, depth, queue.list, queue.dict) <=
      old(QueueWeight(b, depth, queue.list, queue.dict)) + Weight(b, depth, derivations)
  {
    ghost var list, dict := queue.list, queue.dict;
    if key !in dict {
      assert key !in list by {
        assert key !in Elems(list);
      }
      QueueWeightFrame(b, depth, list, dict, key, derivations);
      QueueWeightSnoc(b, depth, list, dict[key := derivations], key);
    }
    queue.Put((key, derivations));
  }

  /** One turn of the loop over the alternatives: the rewrite with
      alternative `j` and the extensible paths extended by its step, put on
      the additive queue. */
  method PutRewriteAdditive(g: Rules, depth: nat, lowMemory: bool, s: Str, m: Match,
                         paths: seq<Path>, avail: seq<Path>, j: nat,
                         queue: AdditiveDictQueue<Str, Path>, ghost b: nat, ghost e: nat)
    requires Search(g, s) == Some(m) && j < |g[m.rule].alts|
    requires avail == Available(paths, depth) && avail != []
    requires Sound(g, depth, lowMemory, s, paths)
    requires queue.Valid() && AllSound(g, depth, lowMemory, queue.dict)
    requires b >= 1 && b * e == Weight(b, depth, avail)
    modifies queue
    ensures queue.Valid() && AllSound(g, depth, lowMemory, queue.dict)
    ensures PathQueue(queue.list, queue.dict) ==
      MergePut(PathQueue(old(queue.list), old(queue.dict)),
             Rewrites(g, depth, lowMemory, s, m, paths)[j].0, Rewrites(g, depth, lowMemory, s, m, paths)[j].1)
    ensures QueueWeight(b, depth, queue.list, queue.dict) <= old(QueueWeight(b, depth, queue.list, queue.dict)) + e
  {
    var alt := g[m.rule].alts[j];
    var step := StepFor(lowMemory, m.start, alt);
    var derivations := Extend(avail, step);
    assert forall p | p in avail :: |p| < depth;
    ExtendSound(g, depth, lowMemory, s, m, paths, alt);
    WeightExtend(b, depth, avail, step);
    MulCancel(b, Weight(b, depth, derivations), e);
    RewriteAt(g, depth, lowMemory, s, m, paths, j);
    PutOneAdditive(g, depth, lowMemory, Splice(s, m, alt), derivations, queue, b);
  }

  /** Puts the leftmost rewrites of `s`, each with the extensible paths of
      `s` extended by its step, on an additive queue. */
  method PutDerivationsAdditive(g: Rules, depth: nat, lowMemory: bool, s: Str, m: Match,
                                paths: seq<Path>, avail: seq<Path>,
                                queue: AdditiveDictQueue<Str, Path>, ghost b: nat, ghost e: nat)
    requires Search(g, s) == Some(m)
    requires avail == Available(paths, depth) && avail != []
    requires Sound(g, depth, lowMemory, s, paths)
    requires queue.Valid() && AllSound(g, depth, lowMemory, queue.dict)
    requires b >= 1 && b * e == Weight(b, depth, avail)
    modifies queue
    ensures queue.Valid() && AllSound(g, depth, lowMemory, queue.dict)
    ensures PathQueue(queue.list, queue.dict) ==
      MergeAll(PathQueue(old(queue.list), old(queue.dict)), Rewrites(g, depth, lowMemory, s, m, paths))
    ensures QueueWeight(b, depth, queue.list, queue.dict) <=
      old(QueueWeight(b, depth, queue.list, queue.dict)) + |g[m.rule].alts| * e
  {
    var alts := g[m.rule].alts;
    ghost var w0 := QueueWeight(b, depth, queue.list, queue.dict);
    ghost var q0 := PathQueue(queue.list, queue.dict);
    ghost var puts := Rewrites(g, depth, lowMemory, s, m, paths);
    for j := 0 to |alts|
      invariant queue.Valid() && AllSound(g, depth, lowMemory, queue.dict)
      invariant PathQueue(queue.list, queue.dict) == MergeAll(q0, puts[..j])
      invariant QueueWeight(b, depth, queue.list, queue.dict) <= w0 + Scale(j, e)
    {
      RewriteAt(g, depth, lowMemory, s, m, paths, j);
      PutRewriteAdditive(g, depth, lowMemory, s, m, paths, avail, j, queue, b, e);
    }
    assert puts[..|alts|] == puts;
    ScaleIsProduct(|alts|, e);
  }

  /** One turn of the loop over the alternatives: the rewrite with
      alternative `j` and the extensible paths extended by its step, put on
      the conservative queue. */
  method PutRewriteConservative(g: Rules, depth: nat, lowMemory: bool, s: Str, m: Match,
                         paths: seq<Path>, avail: seq<Path>, j: nat,
                         queue: ConservativeDictQueue<Str, seq<Path>>, ghost b: nat, ghost e: nat)
    requires Search(g, s) == Some(m) && j < |g[m.rule].alts|
    requires avail == Available(paths, depth) && |avail| == 1
    requires Sound(g, depth, lowMemory, s, paths)
    requires queue.Valid() && AllSound(g, depth, lowMemory, queue.dict)
    requires forall k | k in queue.dict :: |queue.dict[k]| == 1
    requires b >= 1 && b * e == Weight(b, depth, avail)
    modifies queue
    ensures queue.Valid() && AllSound(g, depth, lowMemory, queue.dict)
    ensures forall k | k in queue.dict :: |queue.dict[k]| == 1
    ensures PathQueue(queue.list, queue.dict) ==
      KeepPut(PathQueue(old(queue.list), old(queue.dict)),
             Rewrites(g, depth, lowMemory, s, m, paths)[j].0, Rewrites(g, depth, lowMemory, s, m, paths)[j].1)
    ensures QueueWeight(b, depth, queue.list, queue.dict) <= old(QueueWeight(b, depth, queue.list, queue.dict)) + e
  {
    var alt := g[m.rule].alts[j];
    var step := StepFor(lowMemory, m.start, alt);
    var derivations := Extend(avail, step);
    assert forall p | p in avail :: |p| < depth;
    ExtendSound(g, depth, lowMemory, s, m, paths, alt);
    WeightExtend(b, depth, avail, step);
    MulCancel(b, Weight(b, depth, derivations), e);
    RewriteAt(g, depth, lowMemory, s, m, paths, j);
    PutOneConservative(g, depth, lowMemory, Splice(s, m, alt), derivations, queue, b);
  }

  /** The same puts on a conservative queue. */
  method PutDerivationsConservative(g: Rules, depth: nat, lowMemory: bool, s: Str, m: Match,
                                    paths: seq<Path>, avail: seq<Path>,
                                    queue: ConservativeDictQueue<Str, seq<Path>>, ghost b: nat, ghost e: nat)
    requires Search(g, s) == Some(m)
    requires avail == Available(paths, depth) && |avail| == 1
    requires Sound(g, depth, lowMemory, s, paths)
    requires queue.Valid() && AllSound(g, depth, lowMemory, queue.dict)
    requires forall k | k in queue.dict :: |queue.dict[k]| == 1
    requires b >= 1 && b * e == Weight(b, depth, avail)
    modifies queue
    ensures queue.Valid() && AllSound(g, depth, lowMemory, queue.dict)
    ensures forall k | k in queue.dict :: |queue.dict[k]| == 1
    ensures PathQueue(queue.list, queue.dict) ==
      KeepAll(PathQueue(old(queue.list), old(queue.dict)), Rewrites(g, depth, lowMemory, s, m, paths))
    ensures QueueWeight(b, depth, queue.list, queue.dict) <=
      old(QueueWeight(b, depth, queue.list, queue.dict)) + |g[m.rule].alts| * e
  {
    var alts := g[m.rule].alts;
    ghost var w0 := QueueWeight(b, depth, queue.list, queue.dict);
    ghost var q0 := PathQueue(queue.list, queue.dict);
    ghost var puts := Rewrites(g, depth, lowMemory, s, m, paths);
    for j := 0 to |alts|
      invariant queue.Valid() && AllSound(g, depth, lowMemory, queue.dict)
      invariant PathQueue(queue.list, queue.dict) == KeepAll(q0, puts[..j])
      invariant forall k | k in queue.dict :: |queue.dict[k]| == 1
      invariant QueueWeight(b, depth, queue.list, queue.dict) <= w0 + Scale(j, e)
    {
      RewriteAt(g, depth, lowMemory, s, m, paths, j);
      PutRewriteConservative(g, depth, lowMemory, s, m, paths, avail, j, queue, b, e);
    }
    assert puts[..|alts|] == puts;
    ScaleIsProduct(|alts|, e);
  }

  /** Rewrites a string that still holds a nonterminal, if any of its paths
      is shorter than `depth`; the queue ends up lighter than it was with
      the string still in it. */
  method ExpandAdditive(g: Rules, depth: nat, lowMemory: bool, s: Str, m: Match, paths: seq<Path>,
                        queue: AdditiveDictQueue<Str, Path>, ghost b: nat)
    requires Search(g, s) == Some(m) && b == Branching(g)
    requires paths != [] && Sound(g, depth, lowMemory, s, paths)
    requires queue.Valid() && AllSound(g, depth, lowMemory, queue.dict)
    modifies queue
    ensures queue.Valid() && AllSound(g, depth, lowMemory, queue.dict)
    ensures QueueWeight(b, depth, queue.list, queue.dict) <
      old(QueueWeight(b, depth, queue.list, queue.dict)) + Weight(b, depth, paths)
    ensures Available(paths, depth) == [] ==> queue.list == old(queue.list) && queue.dict == old(queue.dict)
    ensures Available(paths, depth) != [] ==>
      PathQueue(queue.list, queue.dict) ==
        MergeAll(PathQueue(old(queue.list), old(queue.dict)), Rewrites(g, depth, lowMemory, s, m, paths))
  {
    assert paths[0] in paths;
    WeightPositive(b, depth, paths);
    var avail := Available(paths, depth);
    if avail != [] {
      ghost var e := Weight(b, depth, Extend(avail, StepFor(lowMemory, m.start, "")));
      assert forall p | p in avail :: |p| < depth;
      WeightExtend(b, depth, avail, StepFor(lowMemory, m.start, ""));
      WeightAvailable(b, depth, paths);
      assert avail[0] in avail;
      WeightPositive(b, depth, avail);
      MulLess(|g[m.rule].alts|, b, e);
      PutDerivationsAdditive(g, depth, lowMemory, s, m, paths, avail, queue, b, e);
    }
  }

  /** The same on a conservative queue. */
  method ExpandConservative(g: Rules, depth: nat, lowMemory: bool, s: Str, m: Match, paths: seq<Path>,
                            queue: ConservativeDictQueue<Str, seq<Path>>, ghost b: nat)
    requires Search(g, s) == Some(m) && b == Branching(g)
    requires |paths| == 1 && Sound(g, depth, lowMemory, s, paths)
    requires queue.Valid() && AllSound(g, depth, lowMemory, queue.dict)
    requires forall k | k in queue.dict :: |queue.dict[k]| == 1
    modifies queue
    ensures queue.Valid() && AllSound(g, depth, lowMemory, queue.dict)
    ensures forall k | k in queue.dict :: |queue.dict[k]| == 1
    ensures QueueWeight(b, depth, queue.list, queue.dict) <
      old(QueueWeight(b, depth, queue.list, queue.dict)) + Weight(b, depth, paths)
    ensures Available(paths, depth) == [] ==> queue.list == old(queue.list) && queue.dict == old(queue.dict)
    ensures Available(paths, depth) != [] ==>
      PathQueue(queue.list, queue.dict) ==
        KeepAll(PathQueue(old(queue.list), old(queue.dict)), Rewrites(g, depth, lowMemory, s, m, paths))
  {
    assert paths[0] in paths;
    WeightPositive(b, depth, paths);
    var avail := Available(paths, depth);
    if avail != [] {
      ghost var e := Weight(b, depth, Extend(avail, StepFor(lowMemory, m.start, "")));
      assert forall p | p in avail :: |p| < depth;
      WeightExtend(b, depth, avail, StepFor(lowMemory, m.start, ""));
      WeightAvailable(b, depth, paths);
      assert avail[0] in avail;
      WeightPositive(b, depth, avail);
      MulLess(|g[m.rule].alts|, b, e);
      PutDerivationsConservative(g, depth, lowMemory, s, m, paths, avail, queue, b, e);
    }
  }

  /** One turn of the additive loop: takes the front string and stores it
      if terminal, or else expands it. */
  method VisitAdditive(g: Rules, depth: nat, lowMemory: bool,
                       queue: AdditiveDictQueue<Str, Path>, out0: map<Str, seq<Path>>, ghost b: nat)
    returns (out: map<Str, seq<Path>>)
    requires b == Branching(g) && queue.list != []
    requires queue.Valid() && AllSound(g, depth, lowMemory, queue.dict)
    requires forall k | k in out0 :: Terminal(g, k)
    requires AllSound(g, depth, lowMemory, out0)
    modifies queue
    ensures queue.Valid() && AllSound(g, depth, lowMemory, queue.dict)
    ensures forall k | k in out :: Terminal(g, k)
    ensures AllSound(g, depth, lowMemory, out)
    ensures QueueWeight(b, depth, queue.list, queue.dict) < old(QueueWeight(b, depth, queue.list, queue.dict))
    ensures PathState(PathQueue(queue.list, queue.dict), out) ==
      MergeVisit(g, depth, lowMemory, PathState(PathQueue(old(queue.list), old(queue.dict)), out0))
    ensures depth == 0 && old(queue.list) == ["S"] && old(queue.dict) == map["S" := [[]]] && out0 == map[] ==>
      queue.list == [] && out == DepthZero(g)
  {
    out := out0;
    assert queue.list[0] in Elems(queue.list);
    QueueWeightTake(b, depth, queue.list, queue.dict);
    var entry := queue.Take();
    var s, paths := entry.0, entry.1;
    match Search(g, s) {
      case None =>
        out := out[s := paths];
      case Some(m) =>
        ExpandAdditive(g, depth, lowMemory, s, m, paths, queue, b);
    }
  }

  /** Path-recording generation on an additive queue (repetitions stored):
      a string reached again while still queued gains the new paths. */
  method AllDerivations(g: Rules, depth: nat, lowMemory: bool, queue: AdditiveDictQueue<Str, Path>)
    returns (out: map<Str, seq<Path>>)
    requires queue.Valid() && queue.list == [] && queue.dict == map[]
    modifies queue
    ensures queue.list == []
    ensures forall k | k in out :: Terminal(g, k)
    ensures AllSound(g, depth, lowMemory, out)
    ensures depth == 0 ==> out == DepthZero(g)
    ensures exists trace :: MergeRun(g, depth, lowMemory, trace, out)
    ensures forall t :: t in out <==> Terminal(g, t) && Reachability.ReachableWithin(Levels.Kids(g), depth, t)
  {
    out := map[];
    ghost var b := Branching(g);
    queue.Put(("S", [[]]));
    var empty := queue.Empty();
    ghost var trace := [PathState(PathQueue(queue.list, queue.dict), out)];
    while !empty
      invariant queue.Valid() && AllSound(g, depth, lowMemory, queue.dict)
      invariant empty <==> queue.list == []
      invariant forall k | k in out :: Terminal(g, k)
      invariant AllSound(g, depth, lowMemory, out)
      invariant depth == 0 ==>
        (queue.list == ["S"] && queue.dict == map["S" := [[]]] && out == map[]) ||
        (queue.list == [] && out == DepthZero(g))
      invariant trace != [] && trace[0] == Start() && MergeTrace(g, depth, lowMemory, trace)
      invariant trace[|trace| - 1] == PathState(PathQueue(queue.list, queue.dict), out)
      decreases QueueWeight(b, depth, queue.list, queue.dict)
    {
      ghost var mid := PathState(PathQueue(queue.list, queue.dict), out);
      assert queue.list[0] in Elems(queue.list);
      out := VisitAdditive(g, depth, lowMemory, queue, out, b);
      MergeTraceSnoc(g, depth, lowMemory, trace, PathState(PathQueue(queue.list, queue.dict), out));
      trace := trace + [PathState(PathQueue(queue.list, queue.dict), out)];
      empty := queue.Empty();
    }
    assert queue.dict.Keys == Elems(queue.list) == {};
    assert MergeRun(g, depth, lowMemory, trace, out);
    MergeStoredExactly(g, depth, lowMemory, trace, out);
  }

  /** One turn of the conservative loop: takes the front string and stores
      it if terminal, or else expands it. */
  method VisitConservative(g: Rules, depth: nat, lowMemory: bool,
                           queue: ConservativeDictQueue<Str, seq<Path>>, out0: map<Str, seq<Path>>, ghost b: nat)
    returns (out: map<Str, seq<Path>>)
    requires b == Branching(g) && queue.list != []
    requires queue.Valid() && AllSound(g, depth, lowMemory, queue.dict)
    requires forall k | k in queue.dict :: |queue.dict[k]| == 1
    requires forall k | k in out0 :: Terminal(g, k) && |out0[k]| == 1
    requires AllSound(g, depth, lowMemory, out0)
    modifies queue
    ensures queue.Valid() && AllSound(g, depth, lowMemory, queue.dict)
    ensures forall k | k in queue.dict :: |queue.dict[k]| == 1
    ensures forall k | k in out :: Terminal(g, k) && |out[k]| == 1
    ensures AllSound(g, depth, lowMemory, out)
    ensures QueueWeight(b, depth, queue.list, queue.dict) < old(QueueWeight(b, depth, queue.list, queue.dict))
    ensures PathState(PathQueue(queue.list, queue.dict), out) ==
      KeepVisit(g, depth, lowMemory, PathState(PathQueue(old(queue.list), old(queue.dict)), out0))
    ensures depth == 0 && old(queue.list) == ["S"] && old(queue.dict) == map["S" := [[]]] && out0 == map[] ==>
      queue.list == [] && out == DepthZero(g)
  {
    out := out0;
    assert queue.list[0] in Elems(queue.list);
    QueueWeightTake(b, depth, queue.list, queue.dict);
    var entry := queue.Take();
    var s, paths := entry.0, entry.1;
    match Search(g, s) {
      case None =>
        out := out[s := paths];
      case Some(m) =>
        ExpandConservative(g, depth, lowMemory, s, m, paths, queue, b);
    }
  }

  /** Path-recording generation on a conservative queue (repetitions not
      stored): a string reached again while still queued keeps the paths it
      was first queued with, so every stored string has exactly one path. */
  method FirstDerivations(g: Rules, depth: nat, lowMemory: bool, queue: ConservativeDictQueue<Str, seq<Path>>)
    returns (out: map<Str, seq<Path>>)
    requires queue.Valid() && queue.list == [] && queue.dict == map[]
    modifies queue
    ensures queue.list == []
    ensures forall k | k in out :: Terminal(g, k) && |out[k]| == 1
    ensures AllSound(g, depth, lowMemory, out)
    ensures depth == 0 ==> out == DepthZero(g)
    ensures exists trace :: KeepRun(g, depth, lowMemory, trace, out)
    ensures forall t :: t in out <==> Terminal(g, t) && Reachability.ReachableWithin(Levels.Kids(g), depth, t)
  {
    out := map[];
    ghost var b := Branching(g);
    queue.Put(("S", [[]]));
    var empty := queue.Empty();
    ghost var trace := [PathState(PathQueue(queue.list, queue.dict), out)];
    while !empty
      invariant queue.Valid() && AllSound(g, depth, lowMemory, queue.dict)
      invariant forall k | k in queue.dict :: |queue.dict[k]| == 1
      invariant empty <==> queue.list == []
      invariant forall k | k in out :: Terminal(g, k) && |out[k]| == 1
      invariant AllSound(g, depth, lowMemory, out)
      invariant depth == 0 ==>
        (queue.list == ["S"] && queue.dict == map["S" := [[]]] && out == map[]) ||
        (queue.list == [] && out == DepthZero(g))
      invariant trace != [] && trace[0] == Start() && KeepTrace(g, depth, lowMemory, trace)
      invariant trace[|trace| - 1] == PathState(PathQueue(queue.list, queue.dict), out)
      decreases QueueWeight(b, depth, queue.list, queue.dict)
    {
      ghost var mid := PathState(PathQueue(queue.list, queue.dict), out);
      assert queue.list[0] in Elems(queue.list);
      out := VisitConservative(g, depth, lowMemory, queue, out, b);
      KeepTraceSnoc(g, depth, lowMemory, trace, PathState(PathQueue(queue.list, queue.dict), out));
      trace := trace + [PathState(PathQueue(queue.list, queue.dict), out)];
      empty := queue.Empty();
    }
    assert queue.dict.Keys == Elems(queue.list) == {};
    assert KeepRun(g, depth, lowMemory, trace, out);
    KeepStoredExactly(g, depth, lowMemory, trace, out);
  }
}
