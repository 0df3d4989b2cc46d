/** The cursor scanner for OCR output: text followed by runs of `<loc_N>` tokens. */
module OcrRegions {
  import opened Records
  import opened Decimals
  import opened Text

  const LOC_OPEN: string := "<loc_"
  const MAX_LOCATION_TOKEN: nat := 999

  // ----- tokens -----

  predicate OpensAt(s: string, p: nat) {
    p + |LOC_OPEN| <= |s| && s[p..p + |LOC_OPEN|] == LOC_OPEN
  }

  /** The first `<loc_`, if any. */
  function FindOpen(s: string): (found: Option<nat>)
    ensures found.Some? ==> found.value + |LOC_OPEN| <= |s|
  {
    FindOpenFrom(s, 0)
  }

  function FindOpenFrom(s: string, from: nat): (found: Option<nat>)
    ensures found.Some? ==> found.value + |LOC_OPEN| <= |s|
    decreases |s| - from
  {
    if from + |LOC_OPEN| > |s| then None
    else if OpensAt(s, from) then Some(from)
    else FindOpenFrom(s, from + 1)
  }

  lemma {:induction false} FindOpenFromMeaning(s: string, from: nat)
    ensures FindOpenFrom(s, from).Some? ==>
              from <= FindOpenFrom(s, from).value && OpensAt(s, FindOpenFrom(s, from).value)
    ensures FindOpenFrom(s, from).Some? ==>
              forall p: nat :: from <= p < FindOpenFrom(s, from).value ==> !OpensAt(s, p)
    ensures FindOpenFrom(s, from).None? ==> forall p: nat :: from <= p ==> !OpensAt(s, p)
    decreases |s| - from
  {
    if from + |LOC_OPEN| <= |s| && !OpensAt(s, from) {
      FindOpenFromMeaning(s, from + 1);
    }
  }

  /** The search finds the first occurrence, and finds one if there is one. */
  lemma FindOpenMeaning(s: string)
    ensures FindOpen(s).Some? ==>
              OpensAt(s, FindOpen(s).value) && forall p: nat :: p < FindOpen(s).value ==> !OpensAt(s, p)
    ensures FindOpen(s).None? ==> forall p: nat :: !OpensAt(s, p)
  {
    FindOpenFromMeaning(s, 0);
  }

  /** The first `>`, if any. */
  function FindClose(s: string): (found: Option<nat>)
    ensures found.Some? ==> found.value < |s| && s[found.value] == '>' && '>' !in s[..found.value]
    ensures found.None? ==> '>' !in s
  {
    if s == [] then None
    else if s[0] == '>' then Some(0)
    else
      match FindClose(s[1..])
      case None => None
      case Some(k) =>
        assert s[..k + 1] == [s[0]] + s[1..][..k];
        Some(k + 1)
  }

  function Capped(loc: nat): nat {
    if loc <= MAX_LOCATION_TOKEN then loc else MAX_LOCATION_TOKEN
  }

  /** `parse_loc_token_at` on what remains: the capped number and the token's length. */
  function ParseLocToken(s: string): (token: Option<(nat, nat)>)
    ensures token.Some? ==> |LOC_OPEN| + 2 <= token.value.1 <= |s|
  {
    if !OpensAt(s, 0) then None
    else
      var rest := s[|LOC_OPEN|..];
      match FindClose(rest)
      case None => None
      case Some(end) =>
        match ParseU16(rest[..end])
        case None => None
        case Some(loc) =>
          assert rest[..0] == [];
          Some((Capped(loc), |LOC_OPEN| + end + 1))
  }

  /** What a well-formed token looks like, independently of any search. */
  predicate WellFormedToken(s: string) {
    exists end :: |LOC_OPEN| <= end < |s| && OpensAt(s, 0) && s[end] == '>' && U16Literal(s[|LOC_OPEN|..end])
  }

  lemma LiteralHasNoClose(s: string)
    requires U16Literal(s)
    ensures forall i :: 0 <= i < |s| ==> s[i] == '+' || IsDigit(s[i])
  {
    forall i | 0 <= i < |s|
      ensures s[i] == '+' || IsDigit(s[i])
    {
      if s[0] == '+' {
        assert i > 0 ==> s[i] in s[1..] by {
          if i > 0 {
            assert s[1..][i - 1] == s[i];
          }
        }
      } else {
        assert s[i] in s;
      }
    }
  }

  lemma ParsedIsWellFormed(s: string)
    requires ParseLocToken(s).Some?
    ensures WellFormedToken(s)
  {
    var rest := s[|LOC_OPEN|..];
    var end := FindClose(rest).value;
    ParseU16Meaning(rest[..end]);
    assert rest[..end] == s[|LOC_OPEN|..|LOC_OPEN| + end];
    assert s[|LOC_OPEN| + end] == '>';
  }

  lemma WellFormedParses(s: string)
    requires WellFormedToken(s)
    ensures ParseLocToken(s).Some?
  {
    var end :| |LOC_OPEN| <= end < |s| && OpensAt(s, 0) && s[end] == '>' && U16Literal(s[|LOC_OPEN|..end]);
    var literal, rest := s[|LOC_OPEN|..end], s[|LOC_OPEN|..];
    LiteralHasNoClose(literal);
    var k := end - |LOC_OPEN|;
    assert rest[k] == '>' && rest[..k] == literal;
    FirstClose(rest, k);
    ParseU16Meaning(literal);
  }

  lemma ParseLocTokenMeaning(s: string)
    ensures ParseLocToken(s).Some? <==> WellFormedToken(s)
  {
    if ParseLocToken(s).Some? {
      ParsedIsWellFormed(s);
    }
    if WellFormedToken(s) {
      WellFormedParses(s);
    }
  }

  lemma {:induction false} FirstClose(s: string, k: nat)
    requires k < |s| && s[k] == '>' && '>' !in s[..k]
    ensures FindClose(s) == Some(k)
  {
    if k > 0 {
      assert s[..k] == [s[0]] + s[1..][..k - 1];
      FirstClose(s[1..], k - 1);
    }
  }

  /** A contiguous run of tokens: the numbers and the total length. */
  function TokenRun(s: string): (run: (seq<nat>, nat))
    ensures run.1 <= |s| && (run.0 == [] <==> run.1 == 0)
  {
    match ParseLocToken(s)
    case None => ([], 0)
    case Some((loc, length)) =>
      var (locs, more) := TokenRun(s[length..]);
      ([loc] + locs, length + more)
  }

  lemma TokenRunStep(s: string, loc: nat, length: nat)
    requires ParseLocToken(s) == Some((loc, length))
    ensures length <= |s|
    ensures TokenRun(s).0 == [loc] + TokenRun(s[length..]).0
    ensures TokenRun(s).1 == length + TokenRun(s[length..]).1
  {
  }

  // ----- the outer loop -----

  datatype Item = Item(text: string, locs: seq<nat>)

  /** Fewer than two points make no region. */
  function ItemsOf(text: string, locs: seq<nat>): seq<Item> {
    if |locs| / 2 < 2 then [] else [Item(Trim(text), locs)]
  }

  /** One iteration: what remains afterwards, or None when the loop exits. */
  function Step(s: string): Option<string> {
    match FindOpen(s)
    case None => None
    case Some(start) => Some(s[start..][TokenRun(s[start..]).1..])
  }

  /** What remains after `n` iterations, or None if the loop has exited by then. */
  function Iterate(s: string, n: nat): Option<string> {
    if n == 0 then Some(s)
    else match Step(s) case None => None case Some(rest) => Iterate(rest, n - 1)
  }

  ghost predicate Halts(s: string) {
    exists n :: Iterate(s, n).None?
  }

  /** The items the loop collects, or None if it never exits. */
  function Scan(s: string): Option<seq<Item>> {
    match FindOpen(s)
    case None => Some([])
    case Some(start) =>
      var (locs, length) := TokenRun(s[start..]);
      if length == 0 then
        None
      else
        match Scan(s[start..][length..])
        case None => None
        case Some(items) => Some(ItemsOf(s[..start], locs) + items)
  }

  /** What one productive iteration contributes. */
  lemma ScanUnfolds(s: string, start: nat)
    requires Scan(s).Some? && FindOpen(s) == Some(start)
    ensures TokenRun(s[start..]).1 > 0 && Scan(s[start..][TokenRun(s[start..]).1..]).Some?
    ensures Scan(s).value
            == ItemsOf(s[..start], TokenRun(s[start..]).0) + Scan(s[start..][TokenRun(s[start..]).1..]).value
  {
  }

  /** Every `<loc_` in the text opens a well-formed token. */
  predicate AllOpensGood(s: string) {
    forall p | 0 <= p < |s| && OpensAt(s, p) :: WellFormedToken(s[p..])
  }

  /** On a malformed opening an iteration goes nowhere. */
  lemma MalformedIsFixedPoint(s: string)
    requires OpensAt(s, 0) && !WellFormedToken(s)
    ensures Step(s) == Some(s)
  {
    ParseLocTokenMeaning(s);
    FindOpenMeaning(s);
    assert FindOpen(s) == Some(0);
    assert s[0..] == s && s[0..][0..] == s;
  }

  /** On a well-formed opening an iteration consumes at least seven characters. */
  lemma WellFormedProgress(s: string)
    requires FindOpen(s).Some? && WellFormedToken(s[FindOpen(s).value..])
    ensures Step(s).Some? && |Step(s).value| + |LOC_OPEN| + 2 <= |s|
  {
    ParseLocTokenMeaning(s[FindOpen(s).value..]);
  }

  predicate Stuck(s: string) {
    Step(s).Some? && Step(s).value == s
  }

  lemma {:induction false} StuckForever(s: string, n: nat)
    requires Stuck(s)
    ensures Iterate(s, n).Some? && Iterate(s, n).value == s
  {
    if n > 0 {
      StuckForever(s, n - 1);
    }
  }

  lemma {:induction false} ScanHalts(s: string) returns (n: nat)
    requires Scan(s).Some?
    ensures Iterate(s, n).None?
    decreases |s|
  {
    if FindOpen(s).None? {
      n := 1;
    } else {
      n := ScanHalts(Step(s).value);
      n := n + 1;
    }
  }

  lemma GetsStuck(s: string)
    requires FindOpen(s).Some? && TokenRun(s[FindOpen(s).value..]).1 == 0
    ensures Step(s) == Some(s[FindOpen(s).value..])
    ensures Step(s[FindOpen(s).value..]) == Some(s[FindOpen(s).value..])
  {
    var rest := s[FindOpen(s).value..];
    assert rest[0..] == rest;
    FindOpenMeaning(s);
    OpensInSuffix(s, FindOpen(s).value, 0);
    ParseLocTokenMeaning(rest);
    MalformedIsFixedPoint(rest);
  }

  /** The loop will not exit from here. */
  predicate Lost(s: string) {
    Scan(s).None? || Stuck(s)
  }

  /** An iteration of a diverging scan leads to a fixed point or to a shorter diverging scan. */
  lemma LostStep(s: string) returns (rest: string)
    requires Lost(s)
    ensures Step(s).Some? && Step(s).value == rest && Lost(rest)
  {
    rest := Step(s).value;
    if !Stuck(s) && TokenRun(s[FindOpen(s).value..]).1 == 0 {
      GetsStuck(s);
    }
  }

  lemma IterateStep(s: string, rest: string, n: nat)
    requires n > 0 && Step(s).Some? && Step(s).value == rest && Iterate(rest, n - 1).Some?
    ensures Iterate(s, n).Some?
  {
  }

  lemma {:induction false} LostForever(s: string, n: nat)
    requires Lost(s)
    ensures Iterate(s, n).Some?
    decreases n
  {
    if n > 0 {
      var rest := LostStep(s);
      LostForever(rest, n - 1);
      IterateStep(s, rest, n);
    }
  }

  /** The scan function has a value exactly when the loop exits. */
  lemma ScanIffHalts(s: string)
    ensures Scan(s).Some? <==> Halts(s)
  {
    if Scan(s).Some? {
      var n := ScanHalts(s);
    } else {
      forall n
        ensures Iterate(s, n).Some?
      {
        LostForever(s, n);
      }
    }
  }

  // ----- exact termination -----

  /** A token's own characters after the first open nothing. */
  lemma NoOpenInsideToken(s: string, p: nat)
    requires ParseLocToken(s).Some? && 0 < p < ParseLocToken(s).value.1
    ensures !OpensAt(s, p)
  {
    var rest := s[|LOC_OPEN|..];
    var end := FindClose(rest).value;
    ParseU16Meaning(rest[..end]);
    LiteralHasNoClose(rest[..end]);
    assert s[p] != '<' by {
      if p < |LOC_OPEN| {
        assert s[p] == s[0..|LOC_OPEN|][p] == LOC_OPEN[p];
      } else if p < |LOC_OPEN| + end {
        assert s[p] == rest[..end][p - |LOC_OPEN|];
      } else {
        assert s[p] == rest[end];
      }
    }
    NoBracketNoOpen(s, p);
  }

  lemma NoBracketNoOpen(s: string, p: nat)
    requires p < |s| && s[p] != '<'
    ensures !OpensAt(s, p)
  {
    if p + |LOC_OPEN| <= |s| {
      assert s[p..p + |LOC_OPEN|][0] == s[p];
    }
  }

  lemma OpensInSuffix(s: string, k: nat, p: nat)
    requires k <= |s|
    ensures OpensAt(s[k..], p) <==> OpensAt(s, k + p)
  {
    if k + p + |LOC_OPEN| <= |s| {
      assert s[k..][p..p + |LOC_OPEN|] == s[k + p..k + p + |LOC_OPEN|];
    }
  }

  lemma GoodSuffix(s: string, k: nat)
    requires AllOpensGood(s) && k <= |s|
    ensures AllOpensGood(s[k..])
  {
    forall p | 0 <= p < |s[k..]| && OpensAt(s[k..], p)
      ensures WellFormedToken(s[k..][p..])
    {
      OpensInSuffix(s, k, p);
      assert s[k..][p..] == s[k + p..];
    }
  }

  /** A token run of well-formed tokens steps over no other opening. */
  lemma {:induction false} RunStepsOverNothing(s: string, p: nat)
    requires p < TokenRun(s).1 && OpensAt(s, p)
    ensures WellFormedToken(s[p..])
  {
    var (loc, length) := ParseLocToken(s).value;
    if p == 0 {
      assert s[0..] == s;
      ParseLocTokenMeaning(s);
    } else if p < length {
      NoOpenInsideToken(s, p);
    } else {
      TokenRunStep(s, loc, length);
      OpensInSuffix(s, length, p - length);
      RunStepsOverNothing(s[length..], p - length);
      assert s[length..][p - length..] == s[p..];
    }
  }

  lemma {:induction false} GoodScans(s: string)
    requires AllOpensGood(s)
    ensures Scan(s).Some?
    decreases |s|
  {
    if FindOpen(s).Some? {
      FindOpenMeaning(s);
      var start := FindOpen(s).value;
      ParseLocTokenMeaning(s[start..]);
      var length := TokenRun(s[start..]).1;
      GoodSuffix(s, start);
      GoodSuffix(s[start..], length);
      GoodScans(s[start..][length..]);
    }
  }

  lemma GoodPastRun(rest: string, tail: string, length: nat, p: nat)
    requires length <= p < |rest| && tail == rest[length..] && AllOpensGood(tail) && OpensAt(rest, p)
    ensures WellFormedToken(rest[p..])
  {
    OpensInSuffix(rest, length, p - length);
    assert tail[p - length..] == rest[p..];
  }

  /** A text is good if its run of tokens, and what follows the run, are. */
  lemma GoodAfterRun(rest: string, tail: string, length: nat, p: nat)
    requires length == TokenRun(rest).1 && tail == rest[length..] && AllOpensGood(tail)
    requires p < |rest| && OpensAt(rest, p)
    ensures WellFormedToken(rest[p..])
  {
    if p < length {
      RunStepsOverNothing(rest, p);
    } else {
      GoodPastRun(rest, tail, length, p);
    }
  }

  lemma GoodFrom(s: string, start: nat, rest: string, length: nat)
    requires start <= |s| && rest == s[start..] && (forall p: nat :: p < start ==> !OpensAt(s, p))
    requires length == TokenRun(rest).1 && AllOpensGood(rest[length..])
    ensures AllOpensGood(s)
  {
    forall p | 0 <= p < |s| && OpensAt(s, p)
      ensures WellFormedToken(s[p..])
    {
      OpensInSuffix(s, start, p - start);
      GoodAfterRun(rest, rest[length..], length, p - start);
      assert s[p..] == rest[p - start..];
    }
  }

  lemma {:induction false} ScansAreGood(s: string)
    requires Scan(s).Some?
    ensures AllOpensGood(s)
    decreases |s|
  {
    FindOpenMeaning(s);
    if FindOpen(s).Some? {
      var start := FindOpen(s).value;
      var rest := s[start..];
      var length := TokenRun(rest).1;
      ScanUnfolds(s, start);
      ScansAreGood(rest[length..]);
      GoodFrom(s, start, rest, length);
    }
  }

  /**
   * Exact termination: the loop exits if and only if every `<loc_` in the text opens
   * an optional plus sign, digits worth at most 65535, and a `>`.
   */
  lemma HaltsIffAllOpensGood(s: string)
    ensures Halts(s) <==> AllOpensGood(s)
  {
    ScanIffHalts(s);
    if Scan(s).Some? {
      ScansAreGood(s);
    } else if AllOpensGood(s) {
      GoodScans(s);
    }
  }

  /** The shortest text on which the loop never exits. */
  lemma BareOpenNeverHalts()
    ensures !Halts(LOC_OPEN)
  {
    assert OpensAt(LOC_OPEN, 0);
    assert LOC_OPEN[0..] == LOC_OPEN;
    HaltsIffAllOpensGood(LOC_OPEN);
  }

  // ----- printing and parsing -----

  /** A text followed by location numbers, as the model writes it. */
  datatype Segment = Segment(text: string, numbers: seq<nat>)

  function RenderToken(n: nat): string {
    LOC_OPEN + Decimal(n) + ">"
  }

  function RenderTokens(numbers: seq<nat>): string {
    if numbers == [] then [] else RenderToken(numbers[0]) + RenderTokens(numbers[1..])
  }

  function Render(segments: seq<Segment>, tail: string): string {
    if segments == [] then tail
    else segments[0].text + RenderTokens(segments[0].numbers) + Render(segments[1..], tail)
  }

  predicate NoOpens(s: string) {
    forall p :: 0 <= p < |s| ==> !OpensAt(s, p)
  }

  predicate Within(numbers: seq<nat>, bound: nat) {
    forall i :: 0 <= i < |numbers| ==> numbers[i] <= bound
  }

  predicate Renderable(segment: Segment) {
    && NoOpens(segment.text)
    && segment.numbers != []
    && Within(segment.numbers, U16_MAX)
  }

  /** Texts free of `<loc_`, and no empty text that would glue two token runs together. */
  predicate AllRenderable(segments: seq<Segment>) {
    && (forall i :: 0 <= i < |segments| ==> Renderable(segments[i]))
    && (forall i :: 0 < i < |segments| ==> segments[i].text != [])
  }

  function CapAll(numbers: seq<nat>): seq<nat> {
    if numbers == [] then [] else [Capped(numbers[0])] + CapAll(numbers[1..])
  }

  function ItemsOfSegments(segments: seq<Segment>): seq<Item> {
    if segments == [] then []
    else ItemsOf(segments[0].text, CapAll(segments[0].numbers)) + ItemsOfSegments(segments[1..])
  }

  lemma TokenParses(n: nat, rest: string)
    requires n <= U16_MAX
    ensures ParseLocToken(RenderToken(n) + rest) == Some((Capped(n), |RenderToken(n)|))
  {
    var s := RenderToken(n) + rest;
    var digits := Decimal(n);
    assert s[..|LOC_OPEN|] == LOC_OPEN;
    var after := s[|LOC_OPEN|..];
    assert after == digits + (">" + rest);
    assert after[..|digits|] == digits && after[|digits|] == '>';
    assert '>' !in digits by {
      assert forall c :: c in digits ==> IsDigit(c);
    }
    FirstClose(after, |digits|);
    PrintParse(n);
  }

  lemma {:induction false} TokensParse(numbers: seq<nat>, rest: string)
    requires Within(numbers, U16_MAX) && !OpensAt(rest, 0)
    ensures TokenRun(RenderTokens(numbers) + rest).0 == CapAll(numbers)
    ensures TokenRun(RenderTokens(numbers) + rest).1 == |RenderTokens(numbers)|
  {
    if numbers == [] {
      assert RenderTokens(numbers) + rest == rest;
    } else {
      var more := RenderTokens(numbers[1..]);
      TokensParse(numbers[1..], rest);
      TokenParses(numbers[0], more + rest);
      ConsParse(RenderToken(numbers[0]), more, rest, Capped(numbers[0]), CapAll(numbers[1..]));
    }
  }

  lemma ConsParse(token: string, more: string, rest: string, loc: nat, locs: seq<nat>)
    requires ParseLocToken(token + (more + rest)) == Some((loc, |token|))
    requires TokenRun(more + rest).0 == locs && TokenRun(more + rest).1 == |more|
    ensures TokenRun((token + more) + rest).0 == [loc] + locs
    ensures TokenRun((token + more) + rest).1 == |token + more|
  {
    assert (token + more) + rest == token + (more + rest);
    ConsRun(token + (more + rest), more + rest, loc, |token|);
  }

  lemma ConsRun(s: string, behind: string, loc: nat, length: nat)
    requires ParseLocToken(s) == Some((loc, length)) && length <= |s| && s[length..] == behind
    ensures TokenRun(s).0 == [loc] + TokenRun(behind).0
    ensures TokenRun(s).1 == length + TokenRun(behind).1
  {
    TokenRunStep(s, loc, length);
  }

  /** The pattern has no border, so a text without it cannot help open a token early. */
  lemma NoEarlyOpen(text: string, rest: string, p: nat)
    requires NoOpens(text) && p < |text|
    requires rest == [] || OpensAt(rest, 0)
    ensures !OpensAt(text + rest, p)
  {
    var s := text + rest;
    if p + |LOC_OPEN| <= |text| {
      assert s[p..p + |LOC_OPEN|] == text[p..p + |LOC_OPEN|];
      assert !OpensAt(text, p);
    } else if p + |LOC_OPEN| <= |s| {
      var k := |text| - p;
      assert s[p..p + |LOC_OPEN|][k] == s[|text|] == rest[0];
      assert rest[..|LOC_OPEN|][0] == rest[0];
    }
  }

  /** Appended text without the pattern opens nothing where the text itself starts. */
  lemma NotAtStart(text: string, rest: string)
    requires NoOpens(text) && text != []
    requires rest == [] || OpensAt(rest, 0)
    ensures !OpensAt(text + rest, 0)
  {
    NoEarlyOpen(text, rest, 0);
  }

  lemma RenderTokensOpens(numbers: seq<nat>, rest: string)
    requires numbers != []
    ensures OpensAt(RenderTokens(numbers) + rest, 0) && RenderTokens(numbers) != []
  {
    Regroup(LOC_OPEN, Decimal(numbers[0]), ">", RenderTokens(numbers[1..]), rest);
    PrefixOpens(Decimal(numbers[0]) + ">" + RenderTokens(numbers[1..]) + rest);
  }

  lemma Regroup(a: string, b: string, c: string, d: string, e: string)
    ensures (a + b + c) + d + e == a + (b + c + d + e)
  {
  }

  lemma PrefixOpens(rest: string)
    ensures OpensAt(LOC_OPEN + rest, 0)
  {
    assert (LOC_OPEN + rest)[0..0 + |LOC_OPEN|] == LOC_OPEN;
  }

  lemma RenderStart(segments: seq<Segment>, tail: string)
    requires AllRenderable(segments) && NoOpens(tail)
    requires segments != [] ==> segments[0].text != []
    ensures !OpensAt(Render(segments, tail), 0)
  {
    if segments != [] {
      var rest := RenderTokens(segments[0].numbers) + Render(segments[1..], tail);
      RenderTokensOpens(segments[0].numbers, Render(segments[1..], tail));
      NotAtStart(segments[0].text, rest);
      assert Render(segments, tail) == segments[0].text + rest;
    }
  }

  lemma FindAfterText(text: string, rest: string)
    requires NoOpens(text) && OpensAt(rest, 0)
    ensures FindOpen(text + rest) == Some(|text|)
  {
    var s := text + rest;
    assert s[|text|..] == rest;
    OpensInSuffix(s, |text|, 0);
    forall p: nat | p < |text|
      ensures !OpensAt(s, p)
    {
      NoEarlyOpen(text, rest, p);
    }
    FindOpenMeaning(s);
  }

  /**
   * The round trip: scanning a rendered list of segments gives back each segment's
   * trimmed text and its numbers, in order, for every segment with at least two points.
   */
  lemma {:induction false} ScanRendered(segments: seq<Segment>, tail: string)
    requires AllRenderable(segments) && NoOpens(tail)
    ensures Scan(Render(segments, tail)) == Some(ItemsOfSegments(segments))
  {
    var s := Render(segments, tail);
    if segments == [] {
      FindOpenMeaning(s);
    } else {
      var Segment(text, numbers) := segments[0];
      var after := Render(segments[1..], tail);
      var tokens := RenderTokens(numbers);
      RenderTokensOpens(numbers, after);
      assert s == text + (tokens + after);
      FindAfterText(text, tokens + after);
      assert s[|text|..] == tokens + after && s[..|text|] == text;
      RenderStart(segments[1..], tail);
      TokensParse(numbers, after);
      assert (tokens + after)[|tokens|..] == after;
      ScanRendered(segments[1..], tail);
    }
  }

  /** What the model documents: trimmed texts and an even number of in-range numbers come back verbatim. */
  predicate Verbatim(segment: Segment) {
    && Trimmed(segment.text)
    && |segment.numbers| >= 4 && |segment.numbers| % 2 == 0
    && Within(segment.numbers, MAX_LOCATION_TOKEN)
  }

  lemma {:induction false} CapAllIdentity(numbers: seq<nat>)
    requires Within(numbers, MAX_LOCATION_TOKEN)
    ensures CapAll(numbers) == numbers
  {
    if numbers != [] {
      CapAllIdentity(numbers[1..]);
      assert numbers == [numbers[0]] + numbers[1..];
    }
  }

  lemma {:induction false} RoundTrip(segments: seq<Segment>, tail: string)
    requires AllRenderable(segments) && NoOpens(tail)
    requires forall i :: 0 <= i < |segments| ==> Verbatim(segments[i])
    ensures Scan(Render(segments, tail)).Some?
    ensures Scan(Render(segments, tail)).value
            == seq(|segments|, i requires 0 <= i < |segments| => Item(segments[i].text, segments[i].numbers))
  {
    ScanRendered(segments, tail);
    VerbatimItems(segments);
  }

  lemma {:induction false} VerbatimItems(segments: seq<Segment>)
    requires forall i :: 0 <= i < |segments| ==> Verbatim(segments[i])
    ensures ItemsOfSegments(segments)
            == seq(|segments|, i requires 0 <= i < |segments| => Item(segments[i].text, segments[i].numbers))
  {
    if segments != [] {
      VerbatimItems(segments[1..]);
      CapAllIdentity(segments[0].numbers);
      TrimTrimmed(segments[0].text);
    }
  }
}
