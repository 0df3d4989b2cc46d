/**
 * From location numbers to pixel-space regions.  Coordinates are exact rationals:
 * the rounding of binary floating point is not modelled.
 */
module OcrBoxes {
  import opened Records
  import opened OcrRegions
  import opened Text

  /** Rounds half away from zero. */
  function Round(x: real): int {
    if x >= 0.0 then (x + 0.5).Floor else -((0.5 - x).Floor)
  }

  function Round3(x: real): real {
    Round(x * 1000.0) as real / 1000.0
  }

  function ScaleLoc(value: nat, side: nat): real {
    Round3(value as real / 999.0 * side as real)
  }

  lemma RoundNear(x: real)
    ensures x - 0.5 <= Round(x) as real <= x + 0.5
    ensures x >= 0.0 ==> Round(x) >= 0
  {
  }

  /** Ties go away from zero. */
  lemma RoundTies(n: nat)
    ensures Round(n as real + 0.5) == n + 1 && Round(-(n as real) - 0.5) == -(n + 1)
  {
  }

  lemma RoundMonotone(x: real, y: real)
    requires x <= y
    ensures Round(x) <= Round(y)
  {
  }

  lemma RoundInt(n: int)
    ensures Round(n as real) == n
  {
  }

  /** Rounding leaves multiples of a thousandth alone. */
  lemma Round3Grid(n: int)
    ensures Round3(n as real / 1000.0) == n as real / 1000.0
  {
    RoundInt(n);
    assert n as real / 1000.0 * 1000.0 == n as real;
  }

  /** Numbers 0 and 999 land on the two edges; everything between stays inside, within half a thousandth. */
  lemma ScaleLocBounds(value: nat, side: nat)
    requires value <= MAX_LOCATION_TOKEN
    ensures 0.0 <= ScaleLoc(value, side) <= side as real
    ensures ScaleLoc(0, side) == 0.0 && ScaleLoc(MAX_LOCATION_TOKEN, side) == side as real
    ensures -0.0005 <= ScaleLoc(value, side) - value as real / 999.0 * side as real <= 0.0005
  {
    var x := value as real / 999.0 * side as real;
    var s := side as real;
    assert value as real / 999.0 <= 1.0;
    assert 0.0 <= x <= s by {
      Product(value as real / 999.0, s);
    }
    assert 0.0 / 999.0 * s == 0.0;
    assert 999.0 / 999.0 * s == s;
    RoundInt(0);
    RoundInt(1000 * side);
    assert s * 1000.0 == (1000 * side) as real;
    RoundMonotone(0.0, x * 1000.0);
    RoundMonotone(x * 1000.0, s * 1000.0);
    RoundNear(x * 1000.0);
  }

  lemma Product(fraction: real, s: real)
    requires 0.0 <= fraction <= 1.0 && 0.0 <= s
    ensures 0.0 <= fraction * s <= s
  {
    assert (1.0 - fraction) * s >= 0.0;
  }

  /** Distinct numbers never collapse onto one coordinate, and their order is kept. */
  lemma ScaleLocStrict(a: nat, b: nat, side: nat)
    requires a < b <= MAX_LOCATION_TOKEN && side >= 1
    ensures ScaleLoc(a, side) < ScaleLoc(b, side)
  {
    var x, y := a as real / 999.0 * side as real * 1000.0, b as real / 999.0 * side as real * 1000.0;
    var step := side as real * 1000.0 / 999.0;
    assert x == a as real * step && y == b as real * step;
    assert step > 1.0;
    assert y - x == (b - a) as real * step;
    assert (b - a) as real * step >= step by {
      assert ((b - a) as real - 1.0) * step >= 0.0;
    }
    assert (x + 0.5).Floor < (y + 0.5).Floor;
  }

  datatype Point = Point(x: real, y: real)

  /** Pairs of numbers, a leftover number dropped. */
  function Points(locs: seq<nat>, size: (nat, nat)): seq<Point> {
    if |locs| < 2 then []
    else [Point(ScaleLoc(locs[0], size.0), ScaleLoc(locs[1], size.1))] + Points(locs[2..], size)
  }

  lemma {:induction false} PointsAt(locs: seq<nat>, size: (nat, nat), k: nat)
    requires k < |locs| / 2
    ensures |Points(locs, size)| == |locs| / 2
    ensures Points(locs, size)[k] == Point(ScaleLoc(locs[2 * k], size.0), ScaleLoc(locs[2 * k + 1], size.1))
  {
    if |locs| >= 4 {
      PointsAt(locs[2..], size, if k > 0 then k - 1 else 0);
    } else {
      assert Points(locs[2..], size) == [];
    }
  }

  lemma {:induction false} PointsLength(locs: seq<nat>, size: (nat, nat))
    ensures |Points(locs, size)| == |locs| / 2
  {
    if |locs| >= 2 {
      PointsLength(locs[2..], size);
    }
  }

  datatype Box = Box(xMin: real, yMin: real, xMax: real, yMax: real, width: real, height: real)

  datatype Region = Region(text: string, box: Box, polygon: seq<Point>, locs: seq<nat>)

  predicate Contains(box: Box, p: Point) {
    box.xMin <= p.x <= box.xMax && box.yMin <= p.y <= box.yMax
  }

  /** Holds every point, and every edge touches one. */
  predicate Tight(box: Box, points: seq<Point>) {
    && (forall i :: 0 <= i < |points| ==> Contains(box, points[i]))
    && (exists i :: 0 <= i < |points| && points[i].x == box.xMin)
    && (exists i :: 0 <= i < |points| && points[i].x == box.xMax)
    && (exists i :: 0 <= i < |points| && points[i].y == box.yMin)
    && (exists i :: 0 <= i < |points| && points[i].y == box.yMax)
  }

  predicate IsRegion(item: Item, size: (nat, nat), region: Region) {
    && region.text == item.text && region.locs == item.locs
    && region.polygon == Points(item.locs, size)
    && Tight(region.box, region.polygon)
    && region.box.width == region.box.xMax - region.box.xMin
    && region.box.height == region.box.yMax - region.box.yMin
  }

  /** A tight box is unique. */
  lemma TightUnique(a: Box, b: Box, points: seq<Point>)
    requires Tight(a, points) && Tight(b, points)
    ensures a.xMin == b.xMin && a.xMax == b.xMax && a.yMin == b.yMin && a.yMax == b.yMax
  {
  }

  /** The difference of two coordinates needs no rounding. */
  lemma DifferenceExact(a: nat, b: nat, side: nat)
    ensures Round3(ScaleLoc(a, side) - ScaleLoc(b, side)) == ScaleLoc(a, side) - ScaleLoc(b, side)
  {
    var m := Round(a as real / 999.0 * side as real * 1000.0);
    var n := Round(b as real / 999.0 * side as real * 1000.0);
    assert m as real / 1000.0 - n as real / 1000.0 == (m - n) as real / 1000.0;
    Round3Grid(m - n);
  }

  function MinReal(a: real, b: real): real {
    if a <= b then a else b
  }

  function MaxReal(a: real, b: real): real {
    if a >= b then a else b
  }

  /** The running minimum and maximum over the points. */
  method Extremes(points: seq<Point>) returns (xMin: real, yMin: real, xMax: real, yMax: real)
    requires points != []
    ensures Tight(Box(xMin, yMin, xMax, yMax, 0.0, 0.0), points)
  {
    xMin, yMin := points[0].x, points[0].y;
    xMax, yMax := points[0].x, points[0].y;
    TightOne(points);
    for k := 1 to |points|
      invariant Tight(Box(xMin, yMin, xMax, yMax, 0.0, 0.0), points[..k])
    {
      ghost var before := Box(xMin, yMin, xMax, yMax, 0.0, 0.0);
      xMin, yMin := MinReal(xMin, points[k].x), MinReal(yMin, points[k].y);
      xMax, yMax := MaxReal(xMax, points[k].x), MaxReal(yMax, points[k].y);
      GrowTight(points, k, before, Box(xMin, yMin, xMax, yMax, 0.0, 0.0));
    }
    assert points[..|points|] == points;
  }

  /** The box the server reports: rounding its spans changes nothing. */
  method BoundingBox(points: seq<Point>, ghost locs: seq<nat>, ghost size: (nat, nat)) returns (box: Box)
    requires points != [] && points == Points(locs, size)
    ensures Tight(box, points)
    ensures box.width == box.xMax - box.xMin && box.height == box.yMax - box.yMin
  {
    var xMin, yMin, xMax, yMax := Extremes(points);
    ghost var plain := Box(xMin, yMin, xMax, yMax, 0.0, 0.0);
    SpansExact(plain, locs, size);
    box := Box(xMin, yMin, xMax, yMax, Round3(xMax - xMin), Round3(yMax - yMin));
    TightIgnoresSpans(plain, box, points);
  }

  /** Some point touches each edge. */
  lemma Touching(box: Box, points: seq<Point>) returns (left: nat, right: nat, top: nat, bottom: nat)
    requires Tight(box, points)
    ensures left < |points| && points[left].x == box.xMin
    ensures right < |points| && points[right].x == box.xMax
    ensures top < |points| && points[top].y == box.yMin
    ensures bottom < |points| && points[bottom].y == box.yMax
  {
    left :| 0 <= left < |points| && points[left].x == box.xMin;
    right :| 0 <= right < |points| && points[right].x == box.xMax;
    top :| 0 <= top < |points| && points[top].y == box.yMin;
    bottom :| 0 <= bottom < |points| && points[bottom].y == box.yMax;
  }

  lemma GridDifference(x: real, y: real, a: nat, b: nat, side: nat)
    requires x == ScaleLoc(a, side) && y == ScaleLoc(b, side)
    ensures Round3(x - y) == x - y
  {
    DifferenceExact(a, b, side);
  }

  lemma PointsDiffer(locs: seq<nat>, size: (nat, nat), i: nat, j: nat)
    requires i < |locs| / 2 && j < |locs| / 2 && |Points(locs, size)| == |locs| / 2
    ensures var p, q := Points(locs, size)[i], Points(locs, size)[j];
            Round3(p.x - q.x) == p.x - q.x && Round3(p.y - q.y) == p.y - q.y
  {
    PointsAt(locs, size, i);
    PointsAt(locs, size, j);
    var p, q := Points(locs, size)[i], Points(locs, size)[j];
    GridDifference(p.x, q.x, locs[2 * i], locs[2 * j], size.0);
    GridDifference(p.y, q.y, locs[2 * i + 1], locs[2 * j + 1], size.1);
  }

  lemma SpansExact(box: Box, locs: seq<nat>, size: (nat, nat))
    requires Tight(box, Points(locs, size))
    ensures Round3(box.xMax - box.xMin) == box.xMax - box.xMin
    ensures Round3(box.yMax - box.yMin) == box.yMax - box.yMin
  {
    PointsLength(locs, size);
    var left, right, top, bottom := Touching(box, Points(locs, size));
    PointsDiffer(locs, size, right, left);
    PointsDiffer(locs, size, bottom, top);
  }

  lemma TightOne(points: seq<Point>)
    requires points != []
    ensures Tight(Box(points[0].x, points[0].y, points[0].x, points[0].y, 0.0, 0.0), points[..1])
  {
    assert points[..1][0] == points[0];
  }

  lemma TightIgnoresSpans(a: Box, b: Box, points: seq<Point>)
    requires Tight(a, points) && a.xMin == b.xMin && a.xMax == b.xMax && a.yMin == b.yMin && a.yMax == b.yMax
    ensures Tight(b, points)
  {
    assert forall p :: Contains(a, p) ==> Contains(b, p);
  }

  lemma GrowTight(points: seq<Point>, k: nat, before: Box, after: Box)
    requires 0 < k < |points| && Tight(before, points[..k])
    requires after.xMin == MinReal(before.xMin, points[k].x) && after.xMax == MaxReal(before.xMax, points[k].x)
    requires after.yMin == MinReal(before.yMin, points[k].y) && after.yMax == MaxReal(before.yMax, points[k].y)
    ensures Tight(after, points[..k + 1])
  {
    var longer := points[..k + 1];
    assert forall i :: 0 <= i < k ==> longer[i] == points[..k][i];
    assert longer[k] == points[k];
  }

  /** Fewer than two points give no region; otherwise the region is the one the item describes. */
  method OcrRegionItem(item: Item, size: (nat, nat)) returns (region: Option<Region>)
    ensures region.None? <==> |item.locs| / 2 < 2
    ensures region.Some? ==> IsRegion(item, size, region.value)
  {
    var points := Points(item.locs, size);
    PointsLength(item.locs, size);
    if |points| < 2 {
      return None;
    }
    var box := BoundingBox(points, item.locs, size);
    region := Some(Region(item.text, box, points, item.locs));
  }

  predicate AreRegions(items: seq<Item>, size: (nat, nat), regions: seq<Region>) {
    |regions| == |items| && forall i :: 0 <= i < |items| ==> IsRegion(items[i], size, regions[i])
  }

  /** `locs` is what the run from `start` has yielded up to `cursor`. */
  predicate Reading(text: string, start: nat, locs: seq<nat>, cursor: nat) {
    && start <= cursor <= |text|
    && TokenRun(text[start..]).0 == locs + TokenRun(text[cursor..]).0
    && TokenRun(text[start..]).1 == cursor - start + TokenRun(text[cursor..]).1
  }

  lemma ReadingStarts(text: string, start: nat)
    requires start <= |text|
    ensures Reading(text, start, [], start)
  {
  }

  /** `parse_loc_token_at` succeeds at `cursor` with `loc`, and moves on to `next`. */
  predicate TokenAt(text: string, cursor: nat, loc: nat, next: nat) {
    && cursor < next <= |text| && ParseLocToken(text[cursor..]).Some?
    && ParseLocToken(text[cursor..]).value.0 == loc && ParseLocToken(text[cursor..]).value.1 == next - cursor
  }

  predicate NoTokenAt(text: string, cursor: nat) {
    cursor <= |text| && ParseLocToken(text[cursor..]).None?
  }

  method ParseLocTokenAt(text: string, cursor: nat) returns (found: bool, loc: nat, next: nat)
    requires cursor <= |text|
    ensures if found then TokenAt(text, cursor, loc, next) else NoTokenAt(text, cursor)
  {
    match ParseLocToken(text[cursor..]) {
      case Some(token) => found, loc, next := true, token.0, cursor + token.1;
      case None => found, loc, next := false, 0, cursor;
    }
  }

  lemma AppendOne(locs: seq<nat>, loc: nat, more: seq<nat>)
    ensures locs + ([loc] + more) == locs + [loc] + more
  {
  }

  lemma ReadingGoesOn(text: string, start: nat, locs: seq<nat>, cursor: nat, loc: nat, next: nat)
    requires Reading(text, start, locs, cursor) && TokenAt(text, cursor, loc, next)
    ensures Reading(text, start, locs + [loc], next)
  {
    assert text[cursor..][next - cursor..] == text[next..];
    ConsRun(text[cursor..], text[next..], loc, next - cursor);
    AppendOne(locs, loc, TokenRun(text[next..]).0);
  }

  lemma ReadingEnds(text: string, start: nat, locs: seq<nat>, cursor: nat)
    requires Reading(text, start, locs, cursor) && NoTokenAt(text, cursor)
    ensures TokenRun(text[start..]).0 == locs && TokenRun(text[start..]).1 == cursor - start
  {
  }

  /** The inner loop: from an opening, every token it can read. */
  method ReadTokens(text: string, start: nat) returns (locs: seq<nat>, cursor: nat)
    requires start <= |text|
    ensures start <= cursor <= |text|
    ensures locs == TokenRun(text[start..]).0 && cursor - start == TokenRun(text[start..]).1
  {
    locs, cursor := [], start;
    ReadingStarts(text, start);
    var found, loc, next := ParseLocTokenAt(text, cursor);
    while found
      invariant Reading(text, start, locs, cursor)
      invariant if found then TokenAt(text, cursor, loc, next) else NoTokenAt(text, cursor)
      decreases |text| - cursor
    {
      ReadingGoesOn(text, start, locs, cursor, loc, next);
      locs, cursor := locs + [loc], next;
      found, loc, next := ParseLocTokenAt(text, cursor);
    }
    ReadingEnds(text, start, locs, cursor);
  }

  /** The region of one text and its numbers, if it has one. */
  method RegionsOf(text: string, locs: seq<nat>, size: (nat, nat)) returns (regions: seq<Region>)
    ensures AreRegions(ItemsOf(text, locs), size, regions)
  {
    var region := OcrRegionItem(Item(Trim(text), locs), size);
    regions := if region.Some? then [region.value] else [];
  }

  /** What is left to collect from `cursor` on. */
  function ItemsFrom(text: string, cursor: nat): Option<seq<Item>>
    requires cursor <= |text|
  {
    Scan(text[cursor..])
  }

  lemma CursorSlices(text: string, cursor: nat, start: nat, length: nat)
    requires cursor <= start <= start + length <= |text|
    ensures text[cursor..][start - cursor..] == text[start..]
    ensures text[cursor..][..start - cursor] == text[cursor..start]
    ensures text[start..][length..] == text[start + length..]
  {
  }

  lemma UnfoldTo(s: string, start: nat, front: string, back: string, locs: seq<nat>, length: nat, rest: string)
    requires Scan(s).Some? && FindOpen(s) == Some(start) && front == s[..start] && back == s[start..]
    requires locs == TokenRun(back).0 && length == TokenRun(back).1 && rest == back[length..]
    ensures length > 0 && Scan(rest).Some? && Scan(s).value == ItemsOf(front, locs) + Scan(rest).value
  {
    ScanUnfolds(s, start);
  }

  lemma ItemsFromUnfolds(text: string, cursor: nat, start: nat, locs: seq<nat>, next: nat)
    requires cursor <= start <= next <= |text| && FindOpen(text[cursor..]) == Some(start - cursor)
    requires ItemsFrom(text, cursor).Some?
    requires locs == TokenRun(text[start..]).0 && next - start == TokenRun(text[start..]).1
    ensures start < next && ItemsFrom(text, next).Some?
    ensures ItemsFrom(text, cursor).value == ItemsOf(text[cursor..start], locs) + ItemsFrom(text, next).value
  {
    CursorSlices(text, cursor, start, next - start);
    UnfoldTo(text[cursor..], start - cursor, text[cursor..start], text[start..], locs, next - start, text[next..]);
  }

  lemma ConcatAssoc<T>(a: seq<T>, b: seq<T>, c: seq<T>)
    ensures a + (b + c) == (a + b) + c
  {
  }

  lemma AppendRegions(
    items: seq<Item>, more: seq<Item>, size: (nat, nat), regions: seq<Region>, added: seq<Region>)
    requires AreRegions(items, size, regions) && AreRegions(more, size, added)
    ensures AreRegions(items + more, size, regions + added)
  {
  }

  /** One iteration that found an opening: the regions it yields and where it stops. */
  method ScanOnce(text: string, cursor: nat, start: nat, size: (nat, nat))
    returns (regions: seq<Region>, next: nat, ghost items: seq<Item>)
    requires cursor <= start <= |text| && FindOpen(text[cursor..]) == Some(start - cursor)
    requires ItemsFrom(text, cursor).Some?
    ensures cursor < next <= |text| && ItemsFrom(text, next).Some?
    ensures ItemsFrom(text, cursor).value == items + ItemsFrom(text, next).value
    ensures AreRegions(items, size, regions)
  {
    var locs: seq<nat>;
    locs, next := ReadTokens(text, start);
    ItemsFromUnfolds(text, cursor, start, locs, next);
    items := ItemsOf(text[cursor..start], locs);
    regions := RegionsOf(text[cursor..start], locs, size);
  }

  lemma ItemsFromStart(text: string)
    requires AllOpensGood(text)
    ensures ItemsFrom(text, 0).Some? && Scan(text) == ItemsFrom(text, 0)
  {
    GoodScans(text);
    assert text[0..] == text;
  }

  lemma ItemsFromEnd(text: string, cursor: nat, done: seq<Item>)
    requires cursor <= |text| && FindOpen(text[cursor..]).None?
    ensures ItemsFrom(text, cursor) == Some([]) && done + [] == done
  {
  }

  /**
   * The scanner.  Its precondition is exactly the condition under which the loop
   * exits; on any other text the server's loop does not return.
   */
  method ParseOcrRegions(text: string, size: (nat, nat)) returns (regions: seq<Region>)
    requires AllOpensGood(text)
    ensures Scan(text).Some? && AreRegions(Scan(text).value, size, regions)
  {
    ItemsFromStart(text);
    ghost var all := ItemsFrom(text, 0).value;
    ghost var done: seq<Item> := [];
    regions := [];
    var cursor := 0;
    var found := FindOpen(text[cursor..]);
    while found.Some?
      invariant 0 <= cursor <= |text| && found == FindOpen(text[cursor..])
      invariant ItemsFrom(text, cursor).Some? && all == done + ItemsFrom(text, cursor).value
      invariant AreRegions(done, size, regions)
      decreases |text| - cursor
    {
      var added, next;
      ghost var items;
      added, next, items := ScanOnce(text, cursor, cursor + found.value, size);
      AppendRegions(done, items, size, regions, added);
      ConcatAssoc(done, items, ItemsFrom(text, next).value);
      regions, done, cursor := regions + added, done + items, next;
      found := FindOpen(text[cursor..]);
    }
    ItemsFromEnd(text, cursor, done);
  }
}
