/** Context-free grammars as the generator sees them: an ordered table from
    nonterminal names to their alternatives, the leftmost search for a
    nonterminal occurrence, and the splice that rewrites one occurrence. */
module Grammar {

  type Str = string

  datatype Option<T> = None | Some(value: T)

  /** One entry of the rule table: a nonterminal name and its alternatives,
      in the order they were written. */
  datatype Rule = Rule(key: Str, alts: seq<Str>)

  /** The rule table, in insertion order (the order the combined search
      pattern lists the names in). It holds at least one rule: an empty
      table makes the combined pattern the empty pattern, which the
      dispatcher handles on its own. */
  type Rules = g: seq<Rule> | g != [] witness [Rule("S", [])]

  /** A nonterminal name found in a string: its span and the rule it names. */
  datatype Match = Match(start: nat, end: nat, rule: nat)

  predicate OccursAt(key: Str, s: Str, i: nat)
  {
    i + |key| <= |s| && s[i..i + |key|] == key
  }

  /** The name of rule `r` occurs in `s` at position `i`. */
  predicate KeyAt(g: Rules, s: Str, i: nat, r: nat)
  {
    r < |g| && OccursAt(g[r].key, s, i)
  }

  /** `s` holds no nonterminal occurrence at all: a finished sentence. */
  predicate Terminal(g: Rules, s: Str)
  {
    forall i: nat, r: nat :: i <= |s| && r < |g| ==> !KeyAt(g, s, i, r)
  }

  /** `m` is the occurrence the search must report: no name occurs anywhere
      before `m.start`, and at `m.start` no earlier rule's name occurs. */
  predicate Leftmost(g: Rules, s: Str, m: Match)
  {
    && m.rule < |g|
    && m.end == m.start + |g[m.rule].key|
    && KeyAt(g, s, m.start, m.rule)
    && (forall i: nat, r: nat :: i < m.start && r < |g| ==> !KeyAt(g, s, i, r))
    && (forall r: nat :: r < m.rule ==> !KeyAt(g, s, m.start, r))
  }

  /** The first rule, from `r` on, whose name occurs at position `i`. */
  function FirstKeyAt(g: Rules, s: Str, i: nat, r: nat): (res: Option<nat>)
    decreases |g| - r
    ensures res.Some? ==> r <= res.value && KeyAt(g, s, i, res.value)
    ensures res.Some? ==> forall q: nat :: r <= q < res.value ==> !KeyAt(g, s, i, q)
    ensures res.None? ==> forall q: nat :: r <= q ==> !KeyAt(g, s, i, q)
  {
    if r >= |g| then None
    else if OccursAt(g[r].key, s, i) then Some(r)
    else FirstKeyAt(g, s, i, r + 1)
  }

  /** The leftmost occurrence at or after position `i`. */
  function SearchFrom(g: Rules, s: Str, i: nat): (res: Option<Match>)
    requires i <= |s|
    requires forall j: nat, r: nat :: j < i && r < |g| ==> !KeyAt(g, s, j, r)
    decreases |s| - i
    ensures res.Some? ==> Leftmost(g, s, res.value)
    ensures res.None? ==> Terminal(g, s)
  {
    match FirstKeyAt(g, s, i, 0)
    case Some(r) => Some(Match(i, i + |g[r].key|, r))
    case None => if i == |s| then None else SearchFrom(g, s, i + 1)
  }

  /** The search the combined pattern performs: leftmost position first,
      then the first name in rule order at that position. */
  function Search(g: Rules, s: Str): (res: Option<Match>)
    ensures res.Some? ==> Leftmost(g, s, res.value)
    ensures res.None? <==> Terminal(g, s)
  {
    SearchFrom(g, s, 0)
  }

  /** Rewrites the span of `m` in `s` with `alt`. */
  function Splice(s: Str, m: Match, alt: Str): (r: Str)
    requires m.start <= m.end <= |s|
    ensures |r| == |s| - (m.end - m.start) + |alt|
    ensures r[..m.start] == s[..m.start] && r[m.start + |alt|..] == s[m.end..]
    ensures r[m.start..m.start + |alt|] == alt
  {
    s[..m.start] + alt + s[m.end..]
  }

  /** The strings one derivation step turns `s` into: the leftmost occurrence
      rewritten with each alternative of its rule, in rule-list order; none
      when `s` is terminal. */
  function Children(g: Rules, s: Str): (r: seq<Str>)
    ensures Terminal(g, s) ==> r == []
    ensures !Terminal(g, s) ==> |r| == |g[Search(g, s).value.rule].alts|
  {
    match Search(g, s)
    case None => []
    case Some(m) =>
      var alts := g[m.rule].alts;
      seq(|alts|, j requires 0 <= j < |alts| => Splice(s, m, alts[j]))
  }

  lemma ChildrenOfMatch(g: Rules, s: Str, m: Match)
    requires Search(g, s) == Some(m)
    ensures |Children(g, s)| == |g[m.rule].alts|
    ensures forall j :: 0 <= j < |g[m.rule].alts| ==> Children(g, s)[j] == Splice(s, m, g[m.rule].alts[j])
  {
  }

  /** The leftmost match is unique: the search can report only one answer. */
  lemma LeftmostUnique(g: Rules, s: Str, m1: Match, m2: Match)
    requires Leftmost(g, s, m1) && Leftmost(g, s, m2)
    ensures m1 == m2
  {
  }

  /** Every child rewrites exactly the leftmost occurrence: the part before it
      holds no nonterminal and is kept, and so is everything after its span. */
  lemma ChildrenRewriteLeftmost(g: Rules, s: Str, m: Match)
    requires Leftmost(g, s, m)
    ensures |Children(g, s)| == |g[m.rule].alts|
    ensures forall j :: 0 <= j < |g[m.rule].alts| ==>
      Children(g, s)[j] == s[..m.start] + g[m.rule].alts[j] + s[m.end..]
    ensures forall i: nat, r: nat :: i < m.start ==> !KeyAt(g, s[..m.start], i, r)
  {
    var found := Search(g, s);
    LeftmostUnique(g, s, found.value, m);
    forall i: nat, r: nat | i < m.start
      ensures !KeyAt(g, s[..m.start], i, r)
    {
      if KeyAt(g, s[..m.start], i, r) {
        assert s[..m.start][i..i + |g[r].key|] == s[i..i + |g[r].key|];
        assert KeyAt(g, s, i, r);
      }
    }
  }
}
