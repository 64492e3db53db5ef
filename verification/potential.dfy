/** Why the path-recording generator stops. Every queued path of length `n`
    weighs `b` to the power `depth - n`, where `b` exceeds the number of
    alternatives of every rule. Taking a string removes the weight of its
    paths; putting its rewrites adds, per alternative, the weight of its
    extensible paths one step longer, which is a `b`-th of theirs. So the
    total weight of the queue drops with every take. */
module Potential {
  import opened Grammar
  import opened Queues
  import opened Paths

  function Pow(b: nat, e: nat): (r: nat)
    ensures b >= 1 ==> r >= 1
  {
    if e == 0 then 1 else b * Pow(b, e - 1)
  }

  /** One more than the largest number of alternatives of any rule. */
  function Branching(g: seq<Rule>): (b: nat)
    ensures b >= 1
    ensures forall r :: 0 <= r < |g| ==> |g[r].alts| < b
  {
    if g == [] then 1
    else
      var rest := Branching(g[1..]);
      assert forall r :: 1 <= r < |g| ==> g[r] == g[1..][r - 1];
      if |g[0].alts| + 1 > rest then |g[0].alts| + 1 else rest
  }

  function PathWeight(b: nat, depth: nat, p: Path): nat
  {
    if |p| <= depth then Pow(b, depth - |p|) else 0
  }

  function Weight(b: nat, depth: nat, paths: seq<Path>): nat
  {
    if paths == [] then 0 else PathWeight(b, depth, paths[0]) + Weight(b, depth, paths[1..])
  }

  lemma {:induction false} WeightAppend(b: nat, depth: nat, x: seq<Path>, y: seq<Path>)
    ensures Weight(b, depth, x + y) == Weight(b, depth, x) + Weight(b, depth, y)
  {
    if x == [] {
      assert x + y == y;
    } else {
      assert (x + y)[1..] == x[1..] + y;
      WeightAppend(b, depth, x[1..], y);
    }
  }

  lemma {:induction false} WeightAvailable(b: nat, depth: nat, paths: seq<Path>)
    ensures Weight(b, depth, Available(paths, depth)) <= Weight(b, depth, paths)
  {
    if paths != [] {
      WeightAvailable(b, depth, paths[1..]);
    }
  }

  /** A non-empty list of paths no longer than `depth` weighs at least 1. */
  lemma {:induction false} WeightPositive(b: nat, depth: nat, paths: seq<Path>)
    requires b >= 1 && paths != [] && |paths[0]| <= depth
    ensures Weight(b, depth, paths) >= 1
  {
  }

  /** Extending paths shorter than `depth` by one step divides their weight
      by `b`. */
  lemma {:induction false} WeightExtend(b: nat, depth: nat, paths: seq<Path>, step: Step)
    requires forall p :: p in paths ==> |p| < depth
    ensures b * Weight(b, depth, Extend(paths, step)) == Weight(b, depth, paths)
  {
    if paths != [] {
      var ext := Extend(paths, step);
      assert ext[1..] == Extend(paths[1..], step);
      assert paths[0] in paths;
      WeightExtend(b, depth, paths[1..], step);
      assert PathWeight(b, depth, ext[0]) == Pow(b, depth - |paths[0]| - 1);
      calc {
        b * Weight(b, depth, ext);
        b * (Pow(b, depth - |paths[0]| - 1) + Weight(b, depth, ext[1..]));
        b * Pow(b, depth - |paths[0]| - 1) + b * Weight(b, depth, ext[1..]);
        Weight(b, depth, paths);
      }
    }
  }

  /** `n` copies of `e` added up, kept apart from `*` so that loop
      invariants stay linear. */
  function Scale(n: nat, e: nat): nat
  {
    if n == 0 then 0 else Scale(n - 1, e) + e
  }

  lemma {:induction false} ScaleIsProduct(n: nat, e: nat)
    ensures Scale(n, e) == n * e
  {
    if n > 0 {
      ScaleIsProduct(n - 1, e);
    }
  }

  /** The weight of a queue: the weights of its keys' payloads, in order. */
  function QueueWeight(b: nat, depth: nat, list: seq<Str>, dict: map<Str, seq<Path>>): nat
  {
    if list == [] then 0
    else (if list[0] in dict then Weight(b, depth, dict[list[0]]) else 0) + QueueWeight(b, depth, list[1..], dict)
  }

  lemma {:induction false} QueueWeightFrame(b: nat, depth: nat, list: seq<Str>, dict: map<Str, seq<Path>>,
                                            k: Str, v: seq<Path>)
    requires k !in list
    ensures QueueWeight(b, depth, list, dict[k := v]) == QueueWeight(b, depth, list, dict)
    ensures QueueWeight(b, depth, list, dict - {k}) == QueueWeight(b, depth, list, dict)
  {
    if list != [] {
      QueueWeightFrame(b, depth, list[1..], dict, k, v);
    }
  }

  lemma {:induction false} QueueWeightSnoc(b: nat, depth: nat, list: seq<Str>, dict: map<Str, seq<Path>>, k: Str)
    ensures QueueWeight(b, depth, list + [k], dict) ==
      QueueWeight(b, depth, list, dict) + (if k in dict then Weight(b, depth, dict[k]) else 0)
  {
    if list == [] {
      assert [k][1..] == [];
    } else {
      assert (list + [k])[1..] == list[1..] + [k];
      QueueWeightSnoc(b, depth, list[1..], dict, k);
    }
  }

  /** Growing the payload of a key queued once grows the weight by the
      weight of what was added. */
  lemma {:induction false} QueueWeightMerge(b: nat, depth: nat, list: seq<Str>, dict: map<Str, seq<Path>>,
                                            k: Str, v: seq<Path>)
    requires Distinct(list) && k in list && k in dict
    ensures QueueWeight(b, depth, list, dict[k := dict[k] + v]) ==
      QueueWeight(b, depth, list, dict) + Weight(b, depth, v)
  {
    WeightAppend(b, depth, dict[k], v);
    if list[0] == k {
      assert k !in list[1..] by {
        forall i | 0 <= i < |list[1..]| ensures list[1..][i] != k {
          assert list[1..][i] == list[i + 1];
        }
      }
      QueueWeightFrame(b, depth, list[1..], dict, k, dict[k] + v);
    } else {
      assert Distinct(list[1..]) by {
        forall i, j | 0 <= i < j < |list[1..]| ensures list[1..][i] != list[1..][j] {
          assert list[1..][i] == list[i + 1] && list[1..][j] == list[j + 1];
        }
      }
      assert k in list[1..] by {
        var i :| 0 <= i < |list| && list[i] == k;
        assert list[1..][i - 1] == k;
      }
      QueueWeightMerge(b, depth, list[1..], dict, k, v);
    }
  }

  /** Taking the front key of a queue without repeats removes exactly the
      weight of its payload. */
  lemma QueueWeightTake(b: nat, depth: nat, list: seq<Str>, dict: map<Str, seq<Path>>)
    requires Distinct(list) && list != [] && list[0] in dict
    ensures QueueWeight(b, depth, list, dict) ==
      Weight(b, depth, dict[list[0]]) + QueueWeight(b, depth, list[1..], dict - {list[0]})
  {
    assert list[0] !in list[1..] by {
      forall i | 0 <= i < |list[1..]| ensures list[1..][i] != list[0] {
        assert list[1..][i] == list[i + 1];
      }
    }
    QueueWeightFrame(b, depth, list[1..], dict, list[0], []);
  }
}
