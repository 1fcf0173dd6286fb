/** The Go library operations on text that the operator leans on: string order
    and sorting, splitting, joining, cutting, and decimal integers.

    A `char` stands for one byte of a Go string, so the order below is Go's. */
module Text {
  datatype Option<+T> = None | Some(value: T)

  // ---------- order ----------

  predicate Less(a: string, b: string) {
    b != [] && (a == [] || a[0] < b[0] || (a[0] == b[0] && Less(a[1..], b[1..])))
  }

  predicate AtMost(a: string, b: string) {
    a == b || Less(a, b)
  }

  lemma {:induction false} LessIrreflexive(a: string)
    ensures !Less(a, a)
  {
    if a != [] { LessIrreflexive(a[1..]); }
  }

  lemma {:induction false} LessTransitive(a: string, b: string, c: string)
    requires Less(a, b) && Less(b, c)
    ensures Less(a, c)
  {
    if a != [] && a[0] == b[0] == c[0] { LessTransitive(a[1..], b[1..], c[1..]); }
  }

  lemma {:induction false} LessTotal(a: string, b: string)
    ensures a == b || Less(a, b) || Less(b, a)
  {
    if a != [] && b != [] && a[0] == b[0] {
      LessTotal(a[1..], b[1..]);
      assert a == [a[0]] + a[1..] && b == [b[0]] + b[1..];
    }
  }

  lemma LessAsymmetric(a: string, b: string)
    requires Less(a, b)
    ensures !Less(b, a) && a != b
  {
  }

  lemma AtMostTransitive(a: string, b: string, c: string)
    requires AtMost(a, b) && AtMost(b, c)
    ensures AtMost(a, c)
  {
    if a != b && b != c { LessTransitive(a, b, c); }
  }

  /** The first differing byte decides. */
  lemma {:induction false} LessAt(a: string, b: string, i: nat)
    requires i < |a| && i < |b| && a[i] < b[i]
    requires forall j :: 0 <= j < i ==> a[j] == b[j]
    ensures Less(a, b) && !Less(b, a)
  {
    if i > 0 { LessAt(a[1..], b[1..], i - 1); }
  }

  /** The order is that of the first differing byte, a proper prefix coming first. */
  lemma {:induction false} LessIff(a: string, b: string)
    ensures Less(a, b) <==>
      || (|a| < |b| && a == b[..|a|])
      || exists i :: 0 <= i < |a| && i < |b| && a[..i] == b[..i] && a[i] < b[i]
  {
    if a != [] && b != [] && a[0] == b[0] {
      LessIff(a[1..], b[1..]);
      if |a[1..]| < |b[1..]| && a[1..] == b[1..][..|a[1..]|] {
        assert b[..|a|] == [b[0]] + b[1..][..|a[1..]|] == [a[0]] + a[1..];
      }
      if |a| < |b| && a == b[..|a|] { assert a[1..] == b[1..][..|a[1..]|]; }
      if i :| 0 <= i < |a[1..]| && i < |b[1..]| && a[1..][..i] == b[1..][..i] && a[1..][i] < b[1..][i] {
        assert a[..i + 1] == [a[0]] + a[1..][..i] && b[..i + 1] == [b[0]] + b[1..][..i];
        assert a[i + 1] < b[i + 1];
      }
      if i :| 0 <= i < |a| && i < |b| && a[..i] == b[..i] && a[i] < b[i] {
        assert i > 0 && a[1..][..i - 1] == a[..i][1..] && b[1..][..i - 1] == b[..i][1..];
        assert a[1..][i - 1] < b[1..][i - 1];
      }
    } else if a != [] && b != [] {
      if a[0] < b[0] { assert a[..0] == b[..0]; }
      if i :| 0 <= i < |a| && i < |b| && a[..i] == b[..i] && a[i] < b[i] {
        if i > 0 {
          SameHead(a, b, i);
          assert false;
        }
      }
    }
  }

  lemma SameHead(a: string, b: string, i: nat)
    requires 0 < i <= |a| && i <= |b| && a[..i] == b[..i]
    ensures a[0] == b[0]
  {
    assert a[..i][0] == b[..i][0];
  }

  // ---------- sorting ----------

  ghost predicate Sorted(s: seq<string>) {
    forall i, j :: 0 <= i < j < |s| ==> AtMost(s[i], s[j])
  }

  ghost predicate StrictlySorted(s: seq<string>) {
    forall i, j :: 0 <= i < j < |s| ==> Less(s[i], s[j])
  }

  function Elements(s: seq<string>): set<string> {
    set x | x in s
  }

  function Insert(x: string, s: seq<string>): (r: seq<string>)
    ensures multiset(r) == multiset(s) + multiset{x}
    ensures |r| == |s| + 1
    ensures forall y :: y in r ==> y == x || y in s
  {
    if s == [] then [x]
    else if Less(s[0], x) then
      assert s == [s[0]] + s[1..];
      [s[0]] + Insert(x, s[1..])
    else [x] + s
  }

  lemma {:induction false} InsertSorted(x: string, s: seq<string>)
    requires Sorted(s)
    ensures Sorted(Insert(x, s))
  {
    if s == [] {
    } else if Less(s[0], x) {
      InsertSorted(x, s[1..]);
      var t := Insert(x, s[1..]);
      forall k | 0 <= k < |t| ensures AtMost(s[0], t[k]) {
        assert t[k] in t;
        if t[k] != x {
          var i :| 0 <= i < |s[1..]| && s[1..][i] == t[k];
          assert s[i + 1] == t[k];
        }
      }
    } else {
      LessTotal(s[0], x);
      forall k | 0 <= k < |s| ensures AtMost(x, s[k]) {
        if k > 0 { AtMostTransitive(x, s[0], s[k]); }
      }
    }
  }

  /** sort.Strings: its result is the one sorted arrangement (see SortUnique). */
  function SortStrings(s: seq<string>): (r: seq<string>)
    ensures multiset(r) == multiset(s)
    ensures |r| == |s|
    ensures Sorted(r)
  {
    if s == [] then []
    else
      assert s == [s[0]] + s[1..];
      InsertSorted(s[0], SortStrings(s[1..]));
      Insert(s[0], SortStrings(s[1..]))
  }

  lemma {:induction false} SortUnique(a: seq<string>, b: seq<string>)
    requires Sorted(a) && Sorted(b) && multiset(a) == multiset(b)
    ensures a == b
  {
    assert |multiset(a)| == |a| && |multiset(b)| == |b|;
    if a != [] {
      LeastFirst(a, b);
      LeastFirst(b, a);
      if a[0] != b[0] { LessAsymmetric(a[0], b[0]); }
      assert a == [a[0]] + a[1..] && b == [b[0]] + b[1..];
      assert multiset(a[1..]) == multiset(a) - multiset{a[0]};
      assert multiset(b[1..]) == multiset(b) - multiset{b[0]};
      SortUnique(a[1..], b[1..]);
    }
  }

  lemma LeastFirst(a: seq<string>, b: seq<string>)
    requires Sorted(a) && multiset(a) == multiset(b) && a != [] && b != []
    ensures AtMost(a[0], b[0])
  {
    assert b[0] in multiset(a);
    var i :| 0 <= i < |a| && a[i] == b[0];
  }

  /** A set has one strictly sorted listing. */
  lemma {:induction false} StrictlySortedUnique(a: seq<string>, b: seq<string>)
    requires StrictlySorted(a) && StrictlySorted(b)
    requires Elements(a) == Elements(b)
    ensures a == b
  {
    EmptyElements(a);
    EmptyElements(b);
    if a != [] {
      assert a[0] in Elements(b) && b[0] in Elements(a);
      var i :| 0 <= i < |a| && a[i] == b[0];
      var j :| 0 <= j < |b| && b[j] == a[0];
      if a[0] != b[0] { LessAsymmetric(a[0], b[0]); }
      forall x ensures x in Elements(a[1..]) <==> x in Elements(b[1..]) {
        TailElements(a, x);
        TailElements(b, x);
        assert x in Elements(a) <==> x in Elements(b);
      }
      StrictlySortedUnique(a[1..], b[1..]);
      assert a == [a[0]] + a[1..] && b == [b[0]] + b[1..];
    }
  }

  lemma EmptyElements(a: seq<string>)
    ensures Elements(a) == {} <==> a == []
  {
    if a != [] { assert a[0] in Elements(a); }
  }

  lemma TailElements(a: seq<string>, x: string)
    requires a != [] && StrictlySorted(a)
    ensures x in a[1..] <==> x in a && x != a[0]
  {
    if x in a[1..] {
      var i :| 0 <= i < |a[1..]| && a[1..][i] == x;
      assert Less(a[0], a[i + 1]);
      LessIrreflexive(a[0]);
      assert a[i + 1] in a;
    }
  }

  ghost predicate Distinct(s: seq<string>) {
    forall i, j :: 0 <= i < j < |s| ==> s[i] != s[j]
  }

  lemma {:induction false} DistinctCounts(s: seq<string>)
    requires Distinct(s)
    ensures forall x :: multiset(s)[x] <= 1
  {
    if s != [] {
      DistinctCounts(s[1..]);
      assert s == [s[0]] + s[1..];
      assert s[0] !in s[1..];
    }
  }

  lemma RepeatCounts(s: seq<string>, i: nat, j: nat)
    requires i < j < |s| && s[i] == s[j]
    ensures multiset(s)[s[i]] >= 2
  {
    assert s == s[..j] + s[j..];
    assert s[i] in s[..j] && s[j] in s[j..];
    assert multiset(s) == multiset(s[..j]) + multiset(s[j..]);
  }

  /** Sorting distinct names lists their set in strict order. */
  lemma SortDistinct(s: seq<string>)
    requires Distinct(s)
    ensures StrictlySorted(SortStrings(s)) && Elements(SortStrings(s)) == Elements(s)
  {
    var r := SortStrings(s);
    DistinctCounts(s);
    forall i, j | 0 <= i < j < |r| ensures Less(r[i], r[j]) {
      assert AtMost(r[i], r[j]);
      if r[i] == r[j] { RepeatCounts(r, i, j); }
    }
    SameElements(r, s);
  }

  lemma SameElements(r: seq<string>, s: seq<string>)
    requires multiset(r) == multiset(s)
    ensures Elements(r) == Elements(s)
  {
    forall x ensures x in Elements(r) <==> x in Elements(s) {
      assert x in r <==> x in multiset(r);
      assert x in s <==> x in multiset(s);
    }
  }

  /** The strictly sorted listing of a set. */
  ghost function SortedListing(names: set<string>): (r: seq<string>)
    ensures StrictlySorted(r) && Elements(r) == names
  {
    SortDistinct(AnyListing(names));
    SortStrings(AnyListing(names))
  }

  ghost function AnyListing(names: set<string>): (r: seq<string>)
    ensures Distinct(r) && Elements(r) == names
  {
    if names == {} then []
    else
      var x :| x in names;
      var rest := AnyListing(names - {x});
      assert x !in rest by { assert x !in Elements(rest); }
      assert forall y :: y in [x] + rest <==> y == x || y in Elements(rest);
      [x] + rest
  }

  lemma ListingIsSorted(s: seq<string>, names: set<string>)
    requires StrictlySorted(s) && Elements(s) == names
    ensures s == SortedListing(names)
  {
    StrictlySortedUnique(s, SortedListing(names));
  }

  /** A listing of the API server: every name once, in no particular order. */
  method AnyOrder(names: set<string>) returns (listing: seq<string>)
    ensures Distinct(listing) && forall n :: n in listing <==> n in names
  {
    listing := [];
    var left := names;
    while left != {}
      invariant Distinct(listing)
      invariant left <= names && forall n :: n in names <==> n in listing || n in left
      invariant forall n :: n in left ==> n !in listing
      decreases left
    {
      var n :| n in left;
      listing := listing + [n];
      left := left - {n};
    }
  }

  // ---------- split, join, cut ----------

  /** strings.Split on a one-byte separator. */
  function Split(s: string, sep: char): (parts: seq<string>)
    ensures |parts| >= 1
  {
    if s == [] then [""]
    else
      var rest := Split(s[1..], sep);
      if s[0] == sep then [""] + rest else [[s[0]] + rest[0]] + rest[1..]
  }

  /** strings.Join on a one-byte separator. */
  function Join(parts: seq<string>, sep: char): string {
    if parts == [] then ""
    else if |parts| == 1 then parts[0]
    else parts[0] + [sep] + Join(parts[1..], sep)
  }

  lemma {:induction false} SplitPlain(s: string, sep: char)
    requires sep !in s
    ensures Split(s, sep) == [s]
  {
    if s != [] {
      assert s[0] in s;
      SplitPlain(s[1..], sep);
      assert [s[0]] + s[1..] == s;
    }
  }

  lemma {:induction false} SplitAtSeparator(p: string, s: string, sep: char)
    requires sep !in p
    ensures Split(p + [sep] + s, sep) == [p] + Split(s, sep)
  {
    var whole := p + [sep] + s;
    if p == [] {
      assert whole[1..] == s;
    } else {
      assert whole[0] == p[0] && p[0] in p;
      assert whole[1..] == p[1..] + [sep] + s;
      SplitAtSeparator(p[1..], s, sep);
      assert [p[0]] + p[1..] == p;
    }
  }

  /** Splitting undoes joining when no part holds the separator. */
  lemma {:induction false} SplitJoin(parts: seq<string>, sep: char)
    requires parts != []
    requires forall p :: p in parts ==> sep !in p
    ensures Split(Join(parts, sep), sep) == parts
  {
    if |parts| == 1 {
      SplitPlain(parts[0], sep);
    } else {
      SplitJoin(parts[1..], sep);
      SplitAtSeparator(parts[0], Join(parts[1..], sep), sep);
    }
  }

  /** strings.Cut: the text before and after the first separator. */
  function Cut(s: string, sep: char): (r: Option<(string, string)>)
  {
    if s == [] then None
    else if s[0] == sep then Some(("", s[1..]))
    else match Cut(s[1..], sep)
      case None => None
      case Some((before, after)) => Some(([s[0]] + before, after))
  }

  lemma {:induction false} CutAtSeparator(p: string, s: string, sep: char)
    requires sep !in p
    ensures Cut(p + [sep] + s, sep) == Some((p, s))
  {
    var whole := p + [sep] + s;
    if p == [] {
      assert whole[1..] == s;
    } else {
      assert whole[0] == p[0] && p[0] in p;
      assert whole[1..] == p[1..] + [sep] + s;
      CutAtSeparator(p[1..], s, sep);
      assert [p[0]] + p[1..] == p;
    }
  }

  predicate HasPrefix(s: string, p: string) {
    p <= s
  }

  predicate HasSuffix(s: string, t: string) {
    |t| <= |s| && s[|s| - |t|..] == t
  }

  // ---------- decimal int64 ----------

  const MIN_INT64: int := -0x8000_0000_0000_0000
  const MAX_INT64: int := 0x7fff_ffff_ffff_ffff

  predicate IsInt64(n: int) {
    MIN_INT64 <= n <= MAX_INT64
  }

  predicate IsDigit(c: char) {
    '0' <= c <= '9'
  }

  function DigitValue(c: char): nat
    requires IsDigit(c)
  {
    (c as int) - ('0' as int)
  }

  function DigitChar(d: nat): (c: char)
    requires d < 10
    ensures IsDigit(c) && DigitValue(c) == d
  {
    (d + ('0' as int)) as char
  }

  /** The unsigned decimal numeral, no leading zeros. */
  function Digits(n: nat): (s: string)
    ensures s != "" && forall c :: c in s ==> IsDigit(c)
  {
    if n < 10 then [DigitChar(n)] else Digits(n / 10) + [DigitChar(n % 10)]
  }

  /** fmt's %d. */
  function Decimal(n: int): string {
    if n < 0 then "-" + Digits(-n) else Digits(n)
  }

  lemma SignIff(n: int)
    ensures Decimal(n) != "" && (Decimal(n)[0] == '-' <==> n < 0)
  {
    if n >= 0 { assert Digits(n)[0] in Digits(n); }
  }

  function ParseDigits(s: string): Option<nat> {
    if s == "" || !IsDigit(s[|s| - 1]) then None
    else if |s| == 1 then Some(DigitValue(s[0]))
    else match ParseDigits(s[..|s| - 1])
      case None => None
      case Some(n) => Some(10 * n + DigitValue(s[|s| - 1]))
  }

  /** strconv.ParseInt(s, 10, 64): an optional sign, digits, and a value that fits. */
  function ParseInt64(s: string): (r: Option<int>)
    ensures r.Some? ==> IsInt64(r.value)
  {
    if s == "" then None
    else
      var body := if s[0] == '-' || s[0] == '+' then s[1..] else s;
      match ParseDigits(body)
      case None => None
      case Some(n) =>
        var m: int := n;
        var v := if s[0] == '-' then -m else m;
        if IsInt64(v) then Some(v) else None
  }

  /** What is accepted: digits, after at most one sign, of a value that fits. */
  lemma ParseInt64Accepts(s: string)
    ensures ParseInt64(s).Some? ==>
      var body := if s[0] == '-' || s[0] == '+' then s[1..] else s;
      body != "" && forall c :: c in body ==> IsDigit(c)
    ensures forall n: nat :: IsInt64(n) ==> ParseInt64("+" + Digits(n)) == Some(n)
  {
    if ParseInt64(s).Some? {
      OnlyDigits(if s[0] == '-' || s[0] == '+' then s[1..] else s);
    }
    forall n: nat | IsInt64(n) ensures ParseInt64("+" + Digits(n)) == Some(n) {
      ParseDigitsOfDigits(n);
      assert ("+" + Digits(n))[1..] == Digits(n);
    }
  }

  lemma {:induction false} OnlyDigits(s: string)
    ensures ParseDigits(s).Some? <==> s != "" && forall c :: c in s ==> IsDigit(c)
  {
    if |s| > 1 {
      OnlyDigits(s[..|s| - 1]);
      assert s == s[..|s| - 1] + [s[|s| - 1]];
    }
  }

  lemma {:induction false} ParseDigitsOfDigits(n: nat)
    ensures ParseDigits(Digits(n)) == Some(n)
  {
    if n >= 10 {
      ParseDigitsOfDigits(n / 10);
      var s := Digits(n);
      assert s[..|s| - 1] == Digits(n / 10);
      assert s[|s| - 1] == DigitChar(n % 10);
    }
  }

  /** Parsing undoes printing on the whole int64 range, and only there. */
  lemma ParseInt64OfDecimal(n: int)
    ensures ParseInt64(Decimal(n)) == if IsInt64(n) then Some(n) else None
  {
    var digits := Digits(if n < 0 then -n else n);
    ParseDigitsOfDigits(if n < 0 then -n else n);
    if n < 0 {
      assert Decimal(n)[0] == '-' && Decimal(n)[1..] == digits;
    } else {
      assert digits[0] in digits;
    }
  }
}
