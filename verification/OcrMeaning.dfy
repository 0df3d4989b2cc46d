/** What the scanner collects, said of the text itself. */
module OcrMeaning {
  import opened Records
  import opened OcrRegions
  import opened Text

  // ----- rendered texts -----

  /** `item` is this segment: its text trimmed, its numbers cut off at 999. */
  predicate Reads(segment: Segment, item: Item) {
    && item.text == Trim(segment.text)
    && |item.locs| == |segment.numbers|
    && forall k :: 0 <= k < |item.locs| ==>
         item.locs[k] == if segment.numbers[k] <= 999 then segment.numbers[k] else 999
  }

  /** One item for each segment with at least four numbers, in order, and no other. */
  predicate Collected(segments: seq<Segment>, items: seq<Item>) {
    if segments == [] then items == []
    else if |segments[0].numbers| < 4 then Collected(segments[1..], items)
    else items != [] && Reads(segments[0], items[0]) && Collected(segments[1..], items[1..])
  }

  lemma {:induction false} CapAllMeaning(numbers: seq<nat>)
    ensures |CapAll(numbers)| == |numbers|
    ensures forall k :: 0 <= k < |numbers| ==> CapAll(numbers)[k] == if numbers[k] <= 999 then numbers[k] else 999
  {
    if numbers != [] {
      CapAllMeaning(numbers[1..]);
    }
  }

  lemma {:induction false} SegmentsCollected(segments: seq<Segment>)
    ensures Collected(segments, ItemsOfSegments(segments))
  {
    if segments != [] {
      SegmentsCollected(segments[1..]);
      CapAllMeaning(segments[0].numbers);
      var rest := ItemsOfSegments(segments[1..]);
      if |segments[0].numbers| < 4 {
        assert [] + rest == rest;
      } else {
        assert ItemsOfSegments(segments)[1..] == rest;
      }
    }
  }

  /** Scanning what the model renders collects exactly the segments with at least two points. */
  lemma ScanCollects(segments: seq<Segment>, tail: string)
    requires AllRenderable(segments) && NoOpens(tail)
    ensures Scan(Render(segments, tail)).Some? && Collected(segments, Scan(Render(segments, tail)).value)
  {
    ScanRendered(segments, tail);
    SegmentsCollected(segments);
  }

  // ----- any text -----

  /**
   * The item's text is the stretch from `from` up to the next opening, trimmed; its
   * numbers make at least two points and are within 999.
   */
  predicate TakenFrom(item: Item, s: string, from: nat, open: nat) {
    && from <= open < |s| && OpensAt(s, open) && (forall p :: from <= p < open ==> !OpensAt(s, p))
    && item.text == Trim(s[from..open]) && Trimmed(item.text)
    && |item.locs| >= 4 && forall k :: 0 <= k < |item.locs| ==> item.locs[k] <= 999
  }

  lemma {:induction false} RunWithin999(s: string)
    ensures forall k :: 0 <= k < |TokenRun(s).0| ==> TokenRun(s).0[k] <= 999
    decreases |s|
  {
    if ParseLocToken(s).Some? {
      var (loc, length) := ParseLocToken(s).value;
      TokenRunStep(s, loc, length);
      RunWithin999(s[length..]);
    }
  }

  lemma TakenLater(item: Item, s: string, skip: nat, rest: string, f: nat, o: nat) returns (from: nat, open: nat)
    requires skip <= |s| && rest == s[skip..] && TakenFrom(item, rest, f, o)
    ensures TakenFrom(item, s, from, open)
  {
    from, open := skip + f, skip + o;
    assert rest[f..o] == s[from..open];
    OpensInSuffix(s, skip, o);
    forall p | from <= p < open
      ensures !OpensAt(s, p)
    {
      OpensInSuffix(s, skip, p - skip);
    }
  }

  lemma FirstTaken(s: string, start: nat, item: Item)
    requires FindOpen(s) == Some(start) && item in ItemsOf(s[..start], TokenRun(s[start..]).0)
    ensures TakenFrom(item, s, 0, start)
  {
    FindOpenMeaning(s);
    RunWithin999(s[start..]);
    TrimIsTrimmed(s[..start]);
    assert s[0..start] == s[..start];
  }

  predicate TakenFirst(item: Item, s: string) {
    FindOpen(s).Some? && TakenFrom(item, s, 0, FindOpen(s).value)
  }

  /** An item comes from the first stretch of text, or from what is left after the run of tokens behind it. */
  lemma FirstOrLater(s: string, item: Item) returns (skip: nat, rest: string)
    requires Scan(s).Some? && item in Scan(s).value
    ensures 0 < skip <= |s| && rest == s[skip..]
    ensures TakenFirst(item, s) || (Scan(rest).Some? && item in Scan(rest).value)
  {
    var start := FindOpen(s).value;
    var length := TokenRun(s[start..]).1;
    ScanUnfolds(s, start);
    skip, rest := start + length, s[start + length..];
    assert s[start..][length..] == rest;
    if item in ItemsOf(s[..start], TokenRun(s[start..]).0) {
      FirstTaken(s, start, item);
    }
  }

  /** Every item the scanner collects, from whatever text, is taken from the text in this way. */
  lemma {:induction false} ItemsTakenFromText(s: string, item: Item) returns (from: nat, open: nat)
    requires Scan(s).Some? && item in Scan(s).value
    ensures TakenFrom(item, s, from, open)
    decreases |s|
  {
    var skip, rest := FirstOrLater(s, item);
    if TakenFirst(item, s) {
      from, open := 0, FindOpen(s).value;
    } else {
      var f, o := ItemsTakenFromText(rest, item);
      from, open := TakenLater(item, s, skip, rest, f, o);
    }
  }
}
