/** Derivation paths as the path-recording generator stores them: one step
    per rule application, each step the alternative that was spliced in and,
    unless memory is being saved, the position of the rewritten occurrence. */
module Paths {
  import opened Grammar

  datatype Step = Positioned(pos: nat, alt: Str) | Bare(alt: Str)

  type Path = seq<Step>

  /** The step recorded for rewriting the occurrence at `pos` with `alt`:
      the position is dropped in low-memory mode. */
  function StepFor(lowMemory: bool, pos: nat, alt: Str): (r: Step)
    ensures r.alt == alt
    ensures r.Bare? <==> lowMemory
    ensures r.Positioned? ==> r.pos == pos
  {
    if lowMemory then Bare(alt) else Positioned(pos, alt)
  }

  /** Replays one step on `s`: the step must name an alternative of the rule
      whose name the leftmost search finds, and a recorded position must be
      that occurrence's start. */
  function Apply(g: Rules, s: Str, step: Step): Option<Str>
  {
    match Search(g, s)
    case None => None
    case Some(m) =>
      if step.alt in g[m.rule].alts && (step.Positioned? ==> step.pos == m.start)
      then Some(Splice(s, m, step.alt))
      else None
  }

  /** The string a path leads to from "S", if every step replays. */
  function Replay(g: Rules, p: Path): Option<Str>
  {
    if p == [] then Some("S")
    else
      match Replay(g, p[..|p| - 1])
      case None => None
      case Some(s) => Apply(g, s, p[|p| - 1])
  }

  lemma ReplaySnoc(g: Rules, p: Path, step: Step)
    ensures Replay(g, p + [step]) ==
      match Replay(g, p) case None => None case Some(s) => Apply(g, s, step)
  {
    assert (p + [step])[..|p|] == p;
  }

  /** Every step of `p` records a position, or none does, as `lowMemory` says. */
  predicate Shaped(p: Path, lowMemory: bool)
  {
    forall i :: 0 <= i < |p| ==> (p[i].Bare? <==> lowMemory)
  }

  /** `xs` is `ys` with some elements left out, the rest in their order. */
  predicate Subsequence<T(==)>(xs: seq<T>, ys: seq<T>)
    decreases |ys|
  {
    if xs == [] then true
    else if ys == [] then false
    else if xs[0] == ys[0] then Subsequence(xs[1..], ys[1..])
    else Subsequence(xs, ys[1..])
  }

  /** The paths the generator may still extend: those shorter than `depth`,
      in their original order. */
  function Available(paths: seq<Path>, depth: nat): (r: seq<Path>)
    ensures |r| <= |paths|
    ensures forall p :: p in r <==> p in paths && |p| < depth
  {
    if paths == [] then []
    else if |paths[0]| < depth then [paths[0]] + Available(paths[1..], depth)
    else Available(paths[1..], depth)
  }

  /** The filter keeps the order of the paths it keeps and every copy of
      each: a path shorter than `depth` occurs as often as in `paths`, any
      other not at all. */
  lemma {:induction false} AvailableKeeps(paths: seq<Path>, depth: nat)
    ensures Subsequence(Available(paths, depth), paths)
    ensures forall p ::
      multiset(Available(paths, depth))[p] == if |p| < depth then multiset(paths)[p] else 0
  {
    if paths != [] {
      AvailableKeeps(paths[1..], depth);
      assert paths == [paths[0]] + paths[1..];
      if |paths[0]| < depth {
        var r := Available(paths, depth);
        assert r[0] == paths[0] && r[1..] == Available(paths[1..], depth);
      }
    }
  }

  /** Every path extended by the same step. */
  function Extend(paths: seq<Path>, step: Step): (r: seq<Path>)
    ensures |r| == |paths|
    ensures forall i :: 0 <= i < |r| ==> r[i] == paths[i] + [step]
  {
    seq(|paths|, i requires 0 <= i < |paths| => paths[i] + [step])
  }

  /** What the generator knows of every path it holds for `key`: no longer
      than `depth`, of the requested shape, and replaying to `key`. */
  predicate Sound(g: Rules, depth: nat, lowMemory: bool, key: Str, paths: seq<Path>)
  {
    forall p :: p in paths ==> |p| <= depth && Shaped(p, lowMemory) && Replay(g, p) == Some(key)
  }

  /** Rewriting the leftmost occurrence of a string that every available
      path leads to yields a string that every extended path leads to. */
  lemma {:induction false} ExtendSound(g: Rules, depth: nat, lowMemory: bool, s: Str, m: Match,
                                       paths: seq<Path>, alt: Str)
    requires Search(g, s) == Some(m) && alt in g[m.rule].alts
    requires Sound(g, depth, lowMemory, s, paths)
    ensures Sound(g, depth, lowMemory, Splice(s, m, alt),
                  Extend(Available(paths, depth), StepFor(lowMemory, m.start, alt)))
  {
    var step := StepFor(lowMemory, m.start, alt);
    var ext := Extend(Available(paths, depth), step);
    forall q | q in ext
      ensures |q| <= depth && Shaped(q, lowMemory) && Replay(g, q) == Some(Splice(s, m, alt))
    {
      var i :| 0 <= i < |ext| && ext[i] == q;
      var p := Available(paths, depth)[i];
      assert p in Available(paths, depth);
      ReplaySnoc(g, p, step);
      assert q == p + [step];
    }
  }
}
