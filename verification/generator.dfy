/** How repetitions of a generated string are treated. */
module RepetitionMode {
  /** Each string once. */
  const Disabled: int := 0
  /** Every derivation of a string kept. */
  const Enabled: int := 1
  /** Each string with the number of times it was reached. */
  const Count: int := 2
}

/** The entry point: picks the traversal, the queue and the output container
    from the flags, allocates them fresh and runs the traversal. */
module Generator {
  import opened Grammar
  import opened Queues
  import opened Levels
  import opened StringGen
  import opened Paths
  import opened DerivationGen
  import opened PathSteps
  import opened Reachability
  import RepetitionMode

  /** The four result shapes: stored paths per string, multiplicities per
      string, a list with repetitions, or a set; or the failed lookup of a
      rule by the name the search reported. */
  datatype Output =
    | Derivations(paths: map<Str, seq<Path>>)
    | Counts(counts: map<Str, nat>)
    | Listed(list: seq<Str>)
    | Unique(strings: set<Str>)
    | MissingRule(name: Str)

  /** Any `repetition` other than 0 counts as "store repetitions" (in
      particular `Count` with `derivation` set behaves like `Enabled`).
      An empty table compiles to the empty pattern, which matches the empty
      name at the start of "S": every traversal that goes on to look that
      name up fails, and only the path traversal at depth 0, which drops
      "S" before the lookup, returns (nothing). */
  method CfgStringGenerator(table: seq<Rule>, maxDepth: nat, derivation: bool, repetition: int, lowMemory: bool)
    returns (r: Output)
    ensures table == [] ==>
      r == (if derivation && maxDepth == 0 then Derivations(map[]) else MissingRule(""))
    ensures table != [] ==> (derivation <==> r.Derivations?)
    ensures table != [] && derivation ==>
      && (forall k | k in r.paths :: Terminal(table, k))
      && AllSound(table, maxDepth, lowMemory, r.paths)
      && (maxDepth == 0 ==> r.paths == DepthZero(table))
      && r.paths.Keys <= SetGen(table, maxDepth)
      && (forall k :: k in r.paths <==> Terminal(table, k) && ReachableWithin(Kids(table), maxDepth, k))
    ensures table != [] && derivation && repetition != RepetitionMode.Disabled ==>
      exists trace :: MergeRun(table, maxDepth, lowMemory, trace, r.paths)
    ensures table != [] && derivation && repetition == RepetitionMode.Disabled ==>
      && (forall k | k in r.paths :: |r.paths[k]| == 1)
      && exists trace :: KeepRun(table, maxDepth, lowMemory, trace, r.paths)
    ensures table != [] && !derivation && repetition == RepetitionMode.Count ==>
      r == Counts(CountGen(table, maxDepth))
    ensures table != [] && !derivation && repetition != RepetitionMode.Count && repetition != RepetitionMode.Disabled ==>
      r == Listed(ListGen(table, maxDepth))
    ensures table != [] && !derivation && repetition == RepetitionMode.Disabled ==>
      r == Unique(SetGen(table, maxDepth))
  {
    if table == [] {
      if derivation && maxDepth == 0 {
        r := Derivations(map[]);
      } else {
        r := MissingRule("");
      }
      return;
    }
    var g: Rules := table;
    if derivation {
      var out;
      if repetition != RepetitionMode.Disabled {
        var queue := new AdditiveDictQueue<Str, Path>();
        out := AllDerivations(g, maxDepth, lowMemory, queue);
      } else {
        var queue := new ConservativeDictQueue<Str, seq<Path>>();
        out := FirstDerivations(g, maxDepth, lowMemory, queue);
      }
      StoredAreGenerated(g, maxDepth, lowMemory, out);
      r := Derivations(out);
    } else if repetition == RepetitionMode.Count {
      var carry := new Carry();
      var out := new CountSet<Str>(carry);
      var members := new CountSet<Item>(carry);
      var queue := new CountingSetQueue<Item>(members);
      var counts := CountStrings(g, maxDepth, queue, out);
      r := Counts(counts);
    } else if repetition != RepetitionMode.Disabled {
      var queue := new Queue<Item>();
      var out := ListStrings(g, maxDepth, queue);
      r := Listed(out);
    } else {
      var queue := new SetQueue<Item>({});
      var out := UniqueStrings(g, maxDepth, queue);
      r := Unique(out);
    }
  }
}
