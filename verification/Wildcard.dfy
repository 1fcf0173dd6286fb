/** wildcardMatch of cmd/autosign/policy.go: the greedy matcher for patterns in
    which `*` spans any run of characters, against what such a pattern means. */
module Wildcard {
  import opened Text

  // ---------- what a pattern means ----------

  /** How many `*` a pattern holds. */
  function Stars(pattern: string): nat {
    if pattern == "" then 0
    else (if pattern[0] == '*' then 1 else 0) + Stars(pattern[1..])
  }

  /** The pattern with its stars replaced, in order, by the given texts. */
  function Substitute(pattern: string, fills: seq<string>): string
    requires |fills| == Stars(pattern)
  {
    if pattern == "" then ""
    else if pattern[0] == '*' then fills[0] + Substitute(pattern[1..], fills[1..])
    else [pattern[0]] + Substitute(pattern[1..], fills)
  }

  /** Some choice of texts for the stars turns the pattern into the name. */
  ghost predicate Matches(pattern: string, name: string) {
    exists fills: seq<string> :: |fills| == Stars(pattern) && Substitute(pattern, fills) == name
  }

  // ---------- the search the matcher performs ----------

  /** `segs` occur in `name` one after the other without overlap, and `last` ends it. */
  ghost predicate TailMatches(segs: seq<string>, last: string, name: string)
    decreases |segs|
  {
    if segs == [] then HasSuffix(name, last)
    else exists k :: OccursAt(name, segs[0], k) && TailMatches(segs[1..], last, name[k + |segs[0]|..])
  }

  predicate OccursAt(name: string, seg: string, k: int) {
    0 <= k && k + |seg| <= |name| && name[k..k + |seg|] == seg
  }

  /** The split pattern matches: its first part leads, the rest follow. */
  ghost predicate PartsMatch(parts: seq<string>, name: string)
    requires |parts| >= 1
  {
    if |parts| == 1 then parts[0] == name
    else
      && HasPrefix(name, parts[0])
      && TailMatches(parts[1..|parts| - 1], parts[|parts| - 1], name[|parts[0]|..])
  }

  /** strings.Index: the leftmost occurrence, or -1. */
  function Index(name: string, seg: string): (k: int)
    ensures k >= 0 ==> OccursAt(name, seg, k)
    ensures forall j :: OccursAt(name, seg, j) ==> 0 <= k <= j
  {
    IndexFrom(name, seg, 0)
  }

  function IndexFrom(name: string, seg: string, from: nat): (k: int)
    requires from <= |name|
    ensures k >= 0 ==> OccursAt(name, seg, k)
    ensures forall j :: OccursAt(name, seg, j) && from <= j ==> 0 <= k <= j
    decreases |name| - from
  {
    if from + |seg| <= |name| && name[from..from + |seg|] == seg then from
    else if from == |name| then -1
    else IndexFrom(name, seg, from + 1)
  }

  /** A longer text in front never loses a match. */
  lemma {:induction false} TailMatchesExtends(segs: seq<string>, last: string, front: string, name: string)
    requires TailMatches(segs, last, name)
    ensures TailMatches(segs, last, front + name)
  {
    if segs == [] {
    } else {
      var k :| OccursAt(name, segs[0], k) && TailMatches(segs[1..], last, name[k + |segs[0]|..]);
      var whole, at := front + name, |front| + k;
      assert whole[at..at + |segs[0]|] == name[k..k + |segs[0]|];
      assert whole[at + |segs[0]|..] == name[k + |segs[0]|..];
      assert OccursAt(whole, segs[0], at);
    }
  }

  /** The exchange argument: a match found after a later place is also found after
      an earlier one. */
  lemma EarlierSuffices(segs: seq<string>, last: string, name: string, early: nat, late: nat)
    requires early <= late <= |name| && TailMatches(segs, last, name[late..])
    ensures TailMatches(segs, last, name[early..])
  {
    TailMatchesExtends(segs, last, name[early..late], name[late..]);
    assert name[early..] == name[early..late] + name[late..];
  }

  lemma LeftmostSuffices(segs: seq<string>, last: string, name: string, k: int)
    requires segs != []
    requires k >= 0 ==> OccursAt(name, segs[0], k)
    requires forall j :: OccursAt(name, segs[0], j) ==> 0 <= k <= j
    ensures TailMatches(segs, last, name) <==>
            k >= 0 && TailMatches(segs[1..], last, name[k + |segs[0]|..])
  {
    if TailMatches(segs, last, name) {
      var j :| OccursAt(name, segs[0], j) && TailMatches(segs[1..], last, name[j + |segs[0]|..]);
      EarlierSuffices(segs[1..], last, name, k + |segs[0]|, j + |segs[0]|);
    }
  }

  // ---------- the parts and the pattern say the same ----------

  lemma {:induction false} StarsOfSplit(pattern: string)
    ensures |Split(pattern, '*')| == Stars(pattern) + 1
  {
    if pattern != "" { StarsOfSplit(pattern[1..]); }
  }

  /** Substituting into the pattern is interleaving its parts with the fills. */
  function Interleave(parts: seq<string>, fills: seq<string>): string
    requires |parts| == |fills| + 1
  {
    if fills == [] then parts[0]
    else parts[0] + fills[0] + Interleave(parts[1..], fills[1..])
  }

  lemma {:induction false} SubstituteIsInterleave(pattern: string, fills: seq<string>)
    requires |fills| == Stars(pattern)
    ensures |Split(pattern, '*')| == |fills| + 1
    ensures Substitute(pattern, fills) == Interleave(Split(pattern, '*'), fills)
  {
    StarsOfSplit(pattern);
    if pattern == "" {
    } else if pattern[0] == '*' {
      SubstituteIsInterleave(pattern[1..], fills[1..]);
      assert Split(pattern, '*')[1..] == Split(pattern[1..], '*');
    } else {
      SubstituteIsInterleave(pattern[1..], fills);
      var rest := Split(pattern[1..], '*');
      var parts := Split(pattern, '*');
      assert parts == [[pattern[0]] + rest[0]] + rest[1..];
      if fills != [] {
        assert parts[1..] == rest[1..];
        assert parts[0] == [pattern[0]] + rest[0];
      }
    }
  }

  /** Putting text on the first part puts it in front of the whole. */
  lemma InterleaveHead(head: string, parts: seq<string>, fills: seq<string>)
    requires |parts| == |fills| + 1 && parts[0] == ""
    ensures Interleave([head] + parts[1..], fills) == head + Interleave(parts, fills)
  {
  }

  /** The text of segments and an ending, with fills in front of each. */
  function Filled(segs: seq<string>, last: string, fills: seq<string>): string
    requires |fills| == |segs| + 1
  {
    Interleave([""] + segs + [last], fills)
  }

  lemma FilledNil(last: string, fill: string)
    ensures Filled([], last, [fill]) == fill + last
  {
    var parts := [""] + [] + [last];
    assert parts[1..] == [last] && [fill][1..] == [];
    assert Interleave(parts[1..], []) == last;
  }

  lemma FilledCons(segs: seq<string>, last: string, fills: seq<string>)
    requires segs != [] && |fills| == |segs| + 1
    ensures Filled(segs, last, fills) == fills[0] + (segs[0] + Filled(segs[1..], last, fills[1..]))
  {
    var parts, rest := [""] + segs + [last], [""] + segs[1..] + [last];
    InterleaveHead(segs[0], rest, fills[1..]);
    assert parts[1..] == [segs[0]] + rest[1..];
  }

  /** Fills for a located match, and back. */
  lemma {:induction false} TailFills(segs: seq<string>, last: string, name: string) returns (fills: seq<string>)
    requires TailMatches(segs, last, name)
    ensures |fills| == |segs| + 1
    ensures Filled(segs, last, fills) == name
    decreases |segs|
  {
    if segs == [] {
      fills := [name[..|name| - |last|]];
      FilledNil(last, fills[0]);
    } else {
      var k :| OccursAt(name, segs[0], k) && TailMatches(segs[1..], last, name[k + |segs[0]|..]);
      var rest := TailFills(segs[1..], last, name[k + |segs[0]|..]);
      fills := [name[..k]] + rest;
      FilledCons(segs, last, fills);
      assert fills[1..] == rest;
      assert name == name[..k] + (name[k..k + |segs[0]|] + name[k + |segs[0]|..]);
    }
  }

  lemma {:induction false} TailOfFills(segs: seq<string>, last: string, fills: seq<string>)
    requires |fills| == |segs| + 1
    ensures TailMatches(segs, last, Filled(segs, last, fills))
    decreases |segs|
  {
    var name := Filled(segs, last, fills);
    if segs == [] {
      assert fills == [fills[0]];
      FilledNil(last, fills[0]);
    } else {
      FilledCons(segs, last, fills);
      TailOfFills(segs[1..], last, fills[1..]);
      var at := |fills[0]|;
      assert name[at..at + |segs[0]|] == segs[0];
      assert name[at + |segs[0]|..] == Filled(segs[1..], last, fills[1..]);
      assert OccursAt(name, segs[0], at);
    }
  }

  lemma MatchGivesParts(pattern: string, fills: seq<string>, name: string)
    requires |fills| == Stars(pattern) && Substitute(pattern, fills) == name
    requires Stars(pattern) > 0
    ensures PartsMatch(Split(pattern, '*'), name)
  {
    StarsOfSplit(pattern);
    var parts := Split(pattern, '*');
    var first, segs, last := parts[0], parts[1..|parts| - 1], parts[|parts| - 1];
    var blank := [""] + segs + [last];
    assert parts == [first] + blank[1..];
    SubstituteIsInterleave(pattern, fills);
    InterleaveHead(first, blank, fills);
    TailOfFills(segs, last, fills);
    assert name == first + Filled(segs, last, fills);
    assert name[|first|..] == Filled(segs, last, fills);
  }

  lemma PartsGiveMatch(pattern: string, name: string)
    requires Stars(pattern) > 0 && PartsMatch(Split(pattern, '*'), name)
    ensures Matches(pattern, name)
  {
    StarsOfSplit(pattern);
    var parts := Split(pattern, '*');
    var first, segs, last := parts[0], parts[1..|parts| - 1], parts[|parts| - 1];
    var blank := [""] + segs + [last];
    assert parts == [first] + blank[1..];
    var fills := TailFills(segs, last, name[|first|..]);
    InterleaveHead(first, blank, fills);
    SubstituteIsInterleave(pattern, fills);
    assert Substitute(pattern, fills) == name;
  }

  /** The split pattern matches a name exactly when the pattern does. */
  lemma PartsMeanThePattern(pattern: string, name: string)
    ensures PartsMatch(Split(pattern, '*'), name) <==> Matches(pattern, name)
  {
    StarsOfSplit(pattern);
    if Stars(pattern) == 0 {
      SubstituteIsInterleave(pattern, []);
      assert Matches(pattern, name) <==> Substitute(pattern, []) == name;
    } else {
      if PartsMatch(Split(pattern, '*'), name) { PartsGiveMatch(pattern, name); }
      if Matches(pattern, name) {
        var fills :| |fills| == Stars(pattern) && Substitute(pattern, fills) == name;
        MatchGivesParts(pattern, fills, name);
      }
    }
  }

  /** wildcardMatch: split on `*`, take each middle segment at its leftmost place. */
  method WildcardMatch(pattern: string, name: string) returns (matched: bool)
    ensures matched <==> Matches(pattern, name)
  {
    ghost var meant := Matches(pattern, name);
    var parts := Split(pattern, '*');
    assert PartsMatch(parts, name) <==> meant by { PartsMeanThePattern(pattern, name); }
    if |parts| == 1 {
      NoStars(pattern);
      return pattern == name;
    }
    if !HasPrefix(name, parts[0]) {
      return false;
    }
    var rest := name[|parts[0]|..];
    ghost var segs, last := parts[1..|parts| - 1], parts[|parts| - 1];
    var i := 1;
    while i < |parts| - 1
      invariant 1 <= i <= |parts| - 1
      invariant meant <==> TailMatches(segs[i - 1..], last, rest)
    {
      var seg := parts[i];
      var idx := Index(rest, seg);
      assert segs[i - 1..][0] == seg && segs[i - 1..][1..] == segs[i..];
      LeftmostSuffices(segs[i - 1..], last, rest, idx);
      if idx < 0 {
        return false;
      }
      rest := rest[idx + |seg|..];
      i := i + 1;
    }
    return HasSuffix(rest, parts[|parts| - 1]);
  }

  lemma NoStars(pattern: string)
    requires |Split(pattern, '*')| == 1
    ensures Split(pattern, '*') == [pattern]
  {
    StarsOfSplit(pattern);
    StarFree(pattern);
    SplitPlain(pattern, '*');
  }

  lemma {:induction false} StarFree(pattern: string)
    requires Stars(pattern) == 0
    ensures '*' !in pattern
  {
    if pattern != "" { StarFree(pattern[1..]); }
  }
}
