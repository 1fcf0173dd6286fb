/** The rendered-from annotation, internal/controller/rendered_source.go: a printer of
    `name=generation` pairs and the two readers of its text. */
module RenderedSource {
  import opened Text

  datatype Source = Source(name: string, generation: int)

  type Annotations = map<string, string>

  const KEY := "openvox.voxpupuli.org/rendered-from"

  function PairText(s: Source): string {
    s.name + ['='] + Decimal(s.generation)
  }

  function Parts(sources: seq<Source>): (r: seq<string>)
    ensures |r| == |sources|
  {
    seq(|sources|, i requires 0 <= i < |sources| => PairText(sources[i]))
  }

  function AnnotationValue(sources: seq<Source>): string {
    Join(SortStrings(Parts(sources)), ',')
  }

  /** renderedFromAnnotation: format, sort, join; an empty set still yields the key. */
  method RenderedFromAnnotation(sources: seq<Source>) returns (a: Annotations)
    ensures a == map[KEY := AnnotationValue(sources)]
  {
    var parts: seq<string> := [];
    for i := 0 to |sources|
      invariant parts == Parts(sources)[..i]
    {
      parts := parts + [PairText(sources[i])];
    }
    assert parts == Parts(sources);
    parts := SortStrings(parts);
    return map[KEY := Join(parts, ',')];
  }

  predicate RenderedSourceRecorded(a: Annotations) {
    KEY in a
  }

  /** renderedGeneration: the generation under the first pair with the name. */
  function RenderedGeneration(a: Annotations, name: string): Option<int> {
    if KEY !in a || a[KEY] == "" then None
    else FindGeneration(Split(a[KEY], ','), name)
  }

  function FindGeneration(parts: seq<string>, name: string): Option<int> {
    if parts == [] then None
    else match Cut(parts[0], '=')
      case None => FindGeneration(parts[1..], name)
      case Some((key, gen)) =>
        if key != name then FindGeneration(parts[1..], name) else ParseInt64(gen)
  }

  /** renderedSourceRequests: every non-empty name before a `=`. */
  method RenderedSourceRequests(a: Annotations) returns (requests: seq<string>)
    ensures requests == if KEY !in a || a[KEY] == "" then [] else RequestedNames(Split(a[KEY], ','))
  {
    if KEY !in a || a[KEY] == "" { return []; }
    var parts := Split(a[KEY], ',');
    requests := [];
    for i := 0 to |parts|
      invariant requests + RequestedNames(parts[i..]) == RequestedNames(parts)
    {
      assert parts[i..][1..] == parts[i + 1..];
      var cut := Cut(parts[i], '=');
      if cut.None? || cut.value.0 == "" { continue; }
      requests := requests + [cut.value.0];
    }
  }

  function RequestedNames(parts: seq<string>): seq<string> {
    if parts == [] then []
    else match Cut(parts[0], '=')
      case None => RequestedNames(parts[1..])
      case Some((name, _)) => (if name == "" then [] else [name]) + RequestedNames(parts[1..])
  }

  /** allOverride: every Config replaces the binary that would read the rendered file. */
  method AllOverride<C(==)>(configs: seq<C>, command: C -> string) returns (all: bool)
    ensures all <==> configs != [] && forall c :: c in configs ==> command(c) != ""
  {
    for i := 0 to |configs|
      invariant forall c :: c in configs[..i] ==> command(c) != ""
    {
      if command(configs[i]) == "" { return false; }
    }
    assert configs[..|configs|] == configs;
    return |configs| > 0;
  }

  /** The names the annotation of a Secret sends back to the queue. */
  function Requested(a: Option<Annotations>): set<string> {
    if a.None? || KEY !in a.value || a.value[KEY] == "" then {}
    else set n | n in RequestedNames(Split(a.value[KEY], ','))
  }

  lemma {:induction false} FoundIsRequested(parts: seq<string>, n: string)
    requires n != "" && FindGeneration(parts, n).Some?
    ensures n in RequestedNames(parts)
  {
    var cut := Cut(parts[0], '=');
    if cut.None? || cut.value.0 != n { FoundIsRequested(parts[1..], n); }
  }

  /** Whatever the text of the annotation is, a name it gives a generation for is requested. */
  lemma RecordedIsRequested(a: Annotations, n: string)
    requires n != "" && RenderedGeneration(a, n).Some?
    ensures n in Requested(Some(a))
  {
    FoundIsRequested(Split(a[KEY], ','), n);
  }

  // ---------- the round trip ----------

  /** Sources as the API server hands them out. */
  ghost predicate WellFormed(sources: seq<Source>) {
    && (forall s :: s in sources ==> WellFormedSource(s))
    && (forall i, j :: 0 <= i < j < |sources| ==> sources[i].name != sources[j].name)
  }

  predicate WellFormedSource(s: Source) {
    s.name != "" && ',' !in s.name && '=' !in s.name && IsInt64(s.generation)
  }

  lemma PairReadsBack(s: Source)
    requires WellFormedSource(s)
    ensures ',' !in PairText(s)
    ensures Cut(PairText(s), '=') == Some((s.name, Decimal(s.generation)))
    ensures ParseInt64(Decimal(s.generation)) == Some(s.generation)
  {
    CutAtSeparator(s.name, Decimal(s.generation), '=');
    ParseInt64OfDecimal(s.generation);
    var digits := Digits(if s.generation < 0 then -s.generation else s.generation);
    assert forall c :: c in PairText(s) ==> c in s.name || c == '=' || c == '-' || c in digits;
  }

  ghost predicate IsPairOf(p: string, sources: set<Source>) {
    exists s :: s in sources && p == PairText(s)
  }

  /** Every part is some source's text, and every source has one. */
  ghost predicate Lists(parts: seq<string>, sources: set<Source>) {
    && (forall p :: p in parts ==> IsPairOf(p, sources))
    && (forall s :: s in sources ==> PairText(s) in parts)
  }

  ghost predicate NamesDistinct(sources: set<Source>) {
    && (forall s :: s in sources ==> WellFormedSource(s))
    && (forall s, t :: s in sources && t in sources && s.name == t.name ==> s == t)
  }

  /** What a reader finds in the text of one part. */
  lemma PartOf(parts: seq<string>, sources: set<Source>, p: string) returns (s: Source)
    requires NamesDistinct(sources) && Lists(parts, sources) && p in parts
    ensures s in sources && p == PairText(s)
    ensures Cut(p, '=') == Some((s.name, Decimal(s.generation)))
    ensures ParseInt64(Decimal(s.generation)) == Some(s.generation)
  {
    assert IsPairOf(p, sources);
    s :| s in sources && p == PairText(s);
    PairReadsBack(s);
  }

  lemma {:induction false} FindsExactly(parts: seq<string>, sources: set<Source>, name: string)
    requires NamesDistinct(sources)
    requires forall p :: p in parts ==> IsPairOf(p, sources)
    ensures forall g :: FindGeneration(parts, name) == Some(g) <==>
      Source(name, g) in sources && PairText(Source(name, g)) in parts
  {
    if parts != [] {
      assert IsPairOf(parts[0], sources);
      var s :| s in sources && parts[0] == PairText(s);
      PairReadsBack(s);
      FindsExactly(parts[1..], sources, name);
      assert parts == [parts[0]] + parts[1..];
      forall g ensures FindGeneration(parts, name) == Some(g) <==>
          Source(name, g) in sources && PairText(Source(name, g)) in parts {
        if s.name != name && Source(name, g) in sources && PairText(Source(name, g)) == parts[0] {
          PairReadsBack(Source(name, g));
        }
      }
    }
  }

  function SourceSet(sources: seq<Source>): set<Source> {
    set s | s in sources
  }

  lemma SortedPartsList(sources: seq<Source>)
    requires WellFormed(sources)
    ensures NamesDistinct(SourceSet(sources))
    ensures Lists(SortStrings(Parts(sources)), SourceSet(sources))
    ensures forall p :: p in SortStrings(Parts(sources)) ==> ',' !in p
  {
    var parts := Parts(sources);
    var sorted := SortStrings(parts);
    SameElements(sorted, parts);
    assert forall p :: p in sorted <==> p in Elements(sorted);
    forall p | p in sorted ensures ',' !in p && IsPairOf(p, SourceSet(sources)) {
      assert p in parts;
      var i :| 0 <= i < |parts| && parts[i] == p;
      PairReadsBack(sources[i]);
      assert sources[i] in SourceSet(sources);
    }
    forall s | s in sources ensures PairText(s) in sorted {
      var i :| 0 <= i < |sources| && sources[i] == s;
      assert parts[i] in parts;
    }
  }

  /** What the annotation value splits into. */
  lemma ValueSplits(sources: seq<Source>)
    requires WellFormed(sources)
    ensures sources == [] ==> AnnotationValue(sources) == ""
    ensures sources != [] ==>
      AnnotationValue(sources) != "" && Split(AnnotationValue(sources), ',') == SortStrings(Parts(sources))
  {
    var sorted := SortStrings(Parts(sources));
    if sources != [] {
      SortedPartsList(sources);
      SplitJoin(sorted, ',');
      var s := PartOf(sorted, SourceSet(sources), sorted[0]);
      assert sorted[0] != "";
    }
  }

  /** Reading a recorded name gives its generation; any other name gives nothing. */
  lemma GenerationReadsBack(sources: seq<Source>, a: Annotations, name: string)
    requires WellFormed(sources) && KEY in a && a[KEY] == AnnotationValue(sources)
    ensures forall g :: RenderedGeneration(a, name) == Some(g) <==> Source(name, g) in sources
  {
    ValueSplits(sources);
    if sources != [] {
      SortedPartsList(sources);
      FindsExactly(SortStrings(Parts(sources)), SourceSet(sources), name);
    }
  }

  lemma {:induction false} RequestedExactly(parts: seq<string>, sources: set<Source>)
    requires NamesDistinct(sources)
    requires forall p :: p in parts ==> IsPairOf(p, sources)
    ensures |RequestedNames(parts)| == |parts|
    ensures forall n :: n in RequestedNames(parts) <==>
      exists s :: s in sources && s.name == n && PairText(s) in parts
  {
    if parts != [] {
      assert IsPairOf(parts[0], sources);
      var s :| s in sources && parts[0] == PairText(s);
      PairReadsBack(s);
      var rest := parts[1..];
      RequestedExactly(rest, sources);
      assert parts == [parts[0]] + rest;
      assert RequestedNames(parts) == [s.name] + RequestedNames(rest);
      forall n ensures n in RequestedNames(parts) <==>
          exists t :: t in sources && t.name == n && PairText(t) in parts {
        if t: Source :| t in sources && t.name == n && PairText(t) in parts {
          if PairText(t) == parts[0] { PairReadsBack(t); } else { assert PairText(t) in rest; }
        }
      }
    }
  }

  /** The watch map function reaches exactly the recorded names, once each. */
  lemma RequestsReadBack(sources: seq<Source>)
    requires WellFormed(sources) && sources != []
    ensures var names := RequestedNames(Split(AnnotationValue(sources), ','));
      |names| == |sources| && forall n :: n in names <==> exists s :: s in sources && s.name == n
  {
    ValueSplits(sources);
    SortedPartsList(sources);
    var sorted := SortStrings(Parts(sources));
    RequestedExactly(sorted, SourceSet(sources));
    forall n ensures n in RequestedNames(sorted) <==> exists s :: s in sources && s.name == n {
      if s: Source :| s in sources && s.name == n {
        assert s in SourceSet(sources) && PairText(s) in sorted;
      }
    }
  }

  /** The value is the same exactly when the sources are, whatever their order. */
  lemma ValueIsCanonical(a: seq<Source>, b: seq<Source>)
    requires WellFormed(a) && WellFormed(b)
    ensures AnnotationValue(a) == AnnotationValue(b) <==> SourceSet(a) == SourceSet(b)
  {
    if AnnotationValue(a) == AnnotationValue(b) {
      var m := map[KEY := AnnotationValue(a)];
      forall s ensures s in a <==> s in b {
        GenerationReadsBack(a, m, s.name);
        GenerationReadsBack(b, m, s.name);
        assert s == Source(s.name, s.generation);
      }
    }
    if SourceSet(a) == SourceSet(b) {
      PartsStrict(a);
      PartsStrict(b);
      SortedPartsList(a);
      SortedPartsList(b);
      var x, y := SortStrings(Parts(a)), SortStrings(Parts(b));
      forall p ensures p in Elements(x) <==> p in Elements(y) {
        assert p in x <==> IsPairOf(p, SourceSet(a));
        assert p in y <==> IsPairOf(p, SourceSet(b));
      }
      StrictlySortedUnique(x, y);
    }
  }

  lemma PartsStrict(sources: seq<Source>)
    requires WellFormed(sources)
    ensures StrictlySorted(SortStrings(Parts(sources)))
  {
    var parts := Parts(sources);
    forall i, j | 0 <= i < j < |parts| ensures parts[i] != parts[j] {
      PairReadsBack(sources[i]);
      PairReadsBack(sources[j]);
    }
    SortDistinct(parts);
  }
}
