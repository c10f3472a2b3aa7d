/** The table of tracked objects. Every call matches the tracker's output greedily to the
    detections, refreshes the entries it names and ages the others out. */
module TrackTable {
  const MAX_LOST := 5
  const IOU_THRESHOLD := 0.3

  datatype Box = Box(x: real, y: real, w: real, h: real)
  datatype Detection = Detection(box: Box, conf: real, classId: real)
  datatype STrack = STrack(id: int, box: Box, score: real)
  datatype Entry = Entry(det: Detection, box: Box, vx: real, vy: real, age: int, checked: bool, lost: int)

  type Table = map<int, Entry>

  // ---------- Overlap ----------

  function Max(a: real, b: real): real {
    if a < b then b else a
  }

  function Min(a: real, b: real): real {
    if b < a then b else a
  }

  // How much two intervals overlap.
  function Overlap(p: real, pLen: real, q: real, qLen: real): real {
    Max(0.0, Min(p + pLen, q + qLen) - Max(p, q))
  }

  function Intersection(a: Box, b: Box): real {
    Overlap(a.x, a.w, b.x, b.w) * Overlap(a.y, a.h, b.y, b.h)
  }

  function Area(a: Box): real {
    a.w * a.h
  }

  function Ratio(inter: real, union: real): real {
    if union > 0.0 then inter / union else 0.0
  }

  function IoU(a: Box, b: Box): real {
    var inter := Intersection(a, b);
    Ratio(inter, Area(a) + Area(b) - inter)
  }

  lemma ProductGrows(p: real, q: real, bigP: real, bigQ: real)
    requires 0.0 <= p <= bigP && 0.0 <= q <= bigQ
    ensures 0.0 <= p * q <= bigP * bigQ
  {
    assert p * q <= p * bigQ <= bigP * bigQ;
  }

  lemma QuotientAtMostOne(a: real, b: real)
    requires 0.0 <= a <= b && 0.0 < b
    ensures 0.0 <= a / b <= 1.0
  {
  }

  lemma RatioBounds(inter: real, areaA: real, areaB: real)
    requires 0.0 <= inter <= areaA && inter <= areaB
    ensures 0.0 <= Ratio(inter, areaA + areaB - inter) <= 1.0
  {
    var union := areaA + areaB - inter;
    if union > 0.0 {
      QuotientAtMostOne(inter, union);
    }
  }

  lemma OverlapBounds(p: real, pLen: real, q: real, qLen: real)
    requires 0.0 <= pLen && 0.0 <= qLen
    ensures 0.0 <= Overlap(p, pLen, q, qLen) <= pLen && Overlap(p, pLen, q, qLen) <= qLen
    ensures Overlap(p, pLen, q, qLen) == Overlap(q, qLen, p, pLen)
  {
  }

  /** For boxes with non-negative sides the measure is a symmetric ratio between 0 and 1. */
  lemma IoUIsRatio(a: Box, b: Box)
    requires 0.0 <= a.w && 0.0 <= a.h && 0.0 <= b.w && 0.0 <= b.h
    ensures 0.0 <= IoU(a, b) <= 1.0 && IoU(a, b) == IoU(b, a)
  {
    IntersectionBounds(a, b);
    RatioBounds(Intersection(a, b), Area(a), Area(b));
  }

  lemma IntersectionBounds(a: Box, b: Box)
    requires 0.0 <= a.w && 0.0 <= a.h && 0.0 <= b.w && 0.0 <= b.h
    ensures 0.0 <= Intersection(a, b) <= Area(a) && Intersection(a, b) <= Area(b)
    ensures Intersection(a, b) == Intersection(b, a)
  {
    OverlapBounds(a.x, a.w, b.x, b.w);
    OverlapBounds(a.y, a.h, b.y, b.h);
    ProductGrows(Overlap(a.x, a.w, b.x, b.w), Overlap(a.y, a.h, b.y, b.h), a.w, a.h);
    ProductGrows(Overlap(a.x, a.w, b.x, b.w), Overlap(a.y, a.h, b.y, b.h), b.w, b.h);
  }

  // ---------- What the overlap measures ----------

  predicate Inside(x: real, y: real, b: Box) {
    b.x < x < b.x + b.w && b.y < y < b.y + b.h
  }

  // The box between the larger left and lower and the smaller right and upper sides.
  function Common(a: Box, b: Box): Box {
    var x, y := Max(a.x, b.x), Max(a.y, b.y);
    Box(x, y, Min(a.x + a.w, b.x + b.w) - x, Min(a.y + a.h, b.y + b.h) - y)
  }

  predicate Meet(a: Box, b: Box) {
    Common(a, b).w > 0.0 && Common(a, b).h > 0.0
  }

  ghost predicate ShareAPoint(a: Box, b: Box) {
    exists x: real, y: real :: Inside(x, y, a) && Inside(x, y, b)
  }

  lemma PointMeans(a: Box, b: Box, x: real, y: real)
    requires Inside(x, y, a) && Inside(x, y, b)
    ensures Meet(a, b)
  {
    assert Inside(x, y, Common(a, b));
  }

  /** The points inside both boxes are exactly those inside the common box; there is one if and
      only if that box has positive sides, and the measured intersection is its area, or 0. */
  lemma IntersectionIsCommonArea(a: Box, b: Box)
    ensures forall x: real, y: real :: Inside(x, y, a) && Inside(x, y, b) <==> Inside(x, y, Common(a, b))
    ensures ShareAPoint(a, b) <==> Meet(a, b)
    ensures Intersection(a, b) == if ShareAPoint(a, b) then Common(a, b).w * Common(a, b).h else 0.0
  {
    var c := Common(a, b);
    if Meet(a, b) {
      assert Inside(c.x + c.w / 2.0, c.y + c.h / 2.0, a) && Inside(c.x + c.w / 2.0, c.y + c.h / 2.0, b);
    }
    forall x: real, y: real | Inside(x, y, a) && Inside(x, y, b) ensures Meet(a, b) {
      PointMeans(a, b, x, y);
    }
    if c.w <= 0.0 {
      assert Overlap(a.x, a.w, b.x, b.w) == 0.0;
    } else if c.h <= 0.0 {
      assert Overlap(a.y, a.h, b.y, b.h) == 0.0;
    }
  }

  predicate Proper(a: Box) {
    a.w > 0.0 && a.h > 0.0
  }

  predicate Within(b: Box, a: Box) {
    a.x <= b.x && b.x + b.w <= a.x + a.w && a.y <= b.y && b.y + b.h <= a.y + a.h
  }

  lemma ProductPositive(p: real, q: real)
    requires 0.0 < p && 0.0 < q
    ensures 0.0 < p * q
  {
  }

  lemma ProductSmaller(p: real, q: real, bigP: real, bigQ: real)
    requires 0.0 < p <= bigP && 0.0 < q <= bigQ && (p < bigP || q < bigQ)
    ensures p * q < bigP * bigQ
  {
    if p < bigP {
      assert p * q < bigP * q;
      assert bigP * q <= bigP * bigQ;
    } else {
      assert p * q < p * bigQ;
    }
  }

  // A quotient is one, or zero, exactly when ...
  lemma QuotientIs(a: real, b: real)
    requires 0.0 < b
    ensures a / b == 1.0 <==> a == b
    ensures a / b == 0.0 <==> a == 0.0
  {
    assert (a / b) * b == a;
  }

  lemma UnionPositive(a: Box, b: Box)
    requires Proper(a) && Proper(b)
    ensures 0.0 < Area(a) && 0.0 < Area(b)
    ensures 0.0 < Area(a) + Area(b) - Intersection(a, b)
  {
    ProductPositive(a.w, a.h);
    ProductPositive(b.w, b.h);
    IntersectionBounds(a, b);
  }

  /** A box inside another measures as the part of its area it has. */
  lemma IoUOfPart(a: Box, b: Box)
    requires Proper(a) && Proper(b) && Within(b, a)
    ensures IoU(a, b) == (b.w * b.h) / (a.w * a.h)
  {
    UnionPositive(a, b);
    assert Intersection(a, b) == Area(b);
  }

  /** For boxes with positive sides the measure is 1 if and only if they are equal, and 0 if and
      only if no point is inside both. */
  lemma IoUExtremes(a: Box, b: Box)
    requires Proper(a) && Proper(b)
    ensures IoU(a, b) == 1.0 <==> a == b
    ensures IoU(a, b) == 0.0 <==> !ShareAPoint(a, b)
  {
    UnionPositive(a, b);
    QuotientIs(Intersection(a, b), Area(a) + Area(b) - Intersection(a, b));
    IntersectionIsCommonArea(a, b);
    IntersectionBounds(a, b);
    if Meet(a, b) {
      ProductPositive(Common(a, b).w, Common(a, b).h);
      if a != b {
        SmallerCommon(a, b);
      }
    }
  }

  // Different boxes have less in common than one of them has.
  lemma SmallerCommon(a: Box, b: Box)
    requires Proper(a) && Proper(b) && Meet(a, b) && a != b
    ensures Common(a, b).w * Common(a, b).h < Area(a) || Common(a, b).w * Common(a, b).h < Area(b)
  {
    var c := Common(a, b);
    if c.w < a.w || c.h < a.h {
      ProductSmaller(c.w, c.h, a.w, a.h);
    } else {
      ProductSmaller(c.w, c.h, b.w, b.h);
    }
  }

  lemma CancelHeight(p: real, q: real, h: real)
    requires 0.0 < q && 0.0 < h
    ensures (p * h) / (q * h) == p / q
  {
    var r := p / q;
    assert p == r * q;
    assert p * h == r * (q * h);
    ProductPositive(q, h);
  }

  // The measure of boxes that have p * h in common and are q * h together.
  lemma IoUFromSides(a: Box, b: Box, p: real, q: real, h: real)
    requires 0.0 < q && 0.0 < h && Intersection(a, b) == p * h && Area(a) + Area(b) == (p + q) * h
    ensures IoU(a, b) == p / q
  {
    ProductPositive(q, h);
    assert (p + q) * h - p * h == q * h;
    CancelHeight(p, q, h);
  }

  /** Two equal boxes shifted sideways by d, at most their width w, measure (w - d) / (w + d),
      and so do boxes shifted upwards, by the height: a third when shifted by half. */
  lemma IoUOfShifted(a: Box, d: real)
    requires Proper(a) && 0.0 <= d
    ensures d <= a.w ==> IoU(a, a.(x := a.x + d)) == (a.w - d) / (a.w + d)
    ensures d <= a.h ==> IoU(a, a.(y := a.y + d)) == (a.h - d) / (a.h + d)
  {
    if d <= a.w {
      ShiftedAside(a, d);
    }
    if d <= a.h {
      ShiftedUp(a, d);
    }
  }

  lemma ShiftedAside(a: Box, d: real)
    requires Proper(a) && 0.0 <= d <= a.w
    ensures IoU(a, a.(x := a.x + d)) == (a.w - d) / (a.w + d)
  {
    var b := a.(x := a.x + d);
    assert Overlap(a.x, a.w, b.x, b.w) == a.w - d && Overlap(a.y, a.h, b.y, b.h) == a.h;
    assert Area(a) + Area(b) == (a.w - d + (a.w + d)) * a.h;
    IoUFromSides(a, b, a.w - d, a.w + d, a.h);
  }

  lemma ShiftedUp(a: Box, d: real)
    requires Proper(a) && 0.0 <= d <= a.h
    ensures IoU(a, a.(y := a.y + d)) == (a.h - d) / (a.h + d)
  {
    var b := a.(y := a.y + d);
    assert Overlap(a.x, a.w, b.x, b.w) == a.w && Overlap(a.y, a.h, b.y, b.h) == a.h - d;
    assert Area(a) + Area(b) == (a.h - d + (a.h + d)) * a.w;
    IoUFromSides(a, b, a.h - d, a.h + d, a.w);
  }

  // ---------- Greedy matching ----------

  // The scan over the first n detections: best index so far, or -1, and its overlap.
  function Best(res: seq<Detection>, used: set<int>, box: Box, n: nat): (r: (int, real))
    requires n <= |res|
    ensures -1 <= r.0 < n && 0.0 <= r.1 && (r.0 == -1 ==> r.1 == 0.0)
    ensures 0 <= r.0 ==> r.0 !in used && r.1 == IoU(box, res[r.0].box) && r.1 > 0.0
    ensures forall i :: 0 <= i < n && i !in used ==> IoU(box, res[i].box) <= r.1
    ensures forall i :: 0 <= i < r.0 && i !in used ==> IoU(box, res[i].box) < r.1
  {
    if n == 0 then (-1, 0.0)
    else
      var b := Best(res, used, box, n - 1);
      if n - 1 !in used && IoU(box, res[n - 1].box) > b.1 then (n - 1, IoU(box, res[n - 1].box)) else b
  }

  function Choice(res: seq<Detection>, used: set<int>, box: Box): int {
    var b := Best(res, used, box, |res|);
    if b.0 >= 0 && b.1 >= IOU_THRESHOLD then b.0 else -1
  }

  function Indices(ms: seq<int>): (r: set<int>)
    ensures forall i :: i in r <==> 0 <= i && i in ms
  {
    set i | i in ms && 0 <= i
  }

  // Per output track the detection it is given, or -1.
  function Matches(res: seq<Detection>, output: seq<STrack>): (ms: seq<int>)
    ensures |ms| == |output|
  {
    if output == [] then []
    else
      var before := Matches(res, output[..|output| - 1]);
      before + [Choice(res, Indices(before), output[|output| - 1].box)]
  }

  lemma {:induction false} MatchesPrefix(res: seq<Detection>, output: seq<STrack>, n: nat)
    requires n <= |output|
    ensures Matches(res, output)[..n] == Matches(res, output[..n])
    decreases |output|
  {
    if n == |output| {
      assert output[..n] == output;
    } else {
      var front := output[..|output| - 1];
      MatchesPrefix(res, front, n);
      assert Matches(res, output)[..|front|] == Matches(res, front);
      assert Matches(res, output)[..n] == Matches(res, front)[..n];
      assert front[..n] == output[..n];
    }
  }

  /** No detection is given to two output tracks, and a track is given the first of the best
      overlapping detections that earlier tracks left, if that overlap is at least 0.3. */
  lemma GreedyMatching(res: seq<Detection>, output: seq<STrack>, t: nat)
    requires t < |output|
    ensures var ms := Matches(res, output);
            var free := i => 0 <= i < |res| && i !in ms[..t];
            && -1 <= ms[t] < |res|
            && (forall u :: 0 <= u < |output| && u != t && ms[t] >= 0 ==> ms[u] != ms[t])
            && (if ms[t] >= 0 then
                  && free(ms[t]) && IoU(output[t].box, res[ms[t]].box) >= 0.3
                  && (forall i :: free(i) ==> IoU(output[t].box, res[i].box) <= IoU(output[t].box, res[ms[t]].box))
                  && (forall i :: free(i) && i < ms[t] ==> IoU(output[t].box, res[i].box) < IoU(output[t].box, res[ms[t]].box))
                else
                  forall i :: free(i) ==> IoU(output[t].box, res[i].box) < 0.3)
  {
    var ms := Matches(res, output);
    MatchAt(res, output, t);
    forall u | 0 <= u < |output| && u != t && ms[t] >= 0 ensures ms[u] != ms[t] {
      MatchAt(res, output, u);
      assert u < t ==> ms[u] in ms[..t];
      assert t < u ==> ms[t] in ms[..u];
    }
  }

  lemma MatchAt(res: seq<Detection>, output: seq<STrack>, t: nat)
    requires t < |output|
    ensures var ms := Matches(res, output);
            ms[t] == Choice(res, Indices(ms[..t]), output[t].box)
  {
    MatchesPrefix(res, output, t + 1);
    MatchesPrefix(res, output, t);
    assert output[..t + 1][..t] == output[..t];
    assert Matches(res, output)[t] == Matches(res, output)[..t + 1][t];
  }

  // ---------- The update ----------

  function FromTrack(track: STrack): Detection {
    Detection(track.box, track.score, 0.0)
  }

  // A match of -1 keeps the tracker's own box as detection.
  function Refreshed(prev: Table, res: seq<Detection>, track: STrack, m: int): Entry
    requires m < |res|
  {
    var det := if m >= 0 then res[m] else FromTrack(track);
    if track.id in prev then
      var e := prev[track.id];
      Entry(det, track.box, track.box.x - e.box.x, track.box.y - e.box.y, e.age + 1, true, 0)
    else Entry(det, track.box, 0.0, 0.0, 1, true, 0)
  }

  // A later track with the same id overwrites an earlier one.
  function Refreshes(prev: Table, res: seq<Detection>, output: seq<STrack>): (r: Table)
    ensures forall id :: id in r <==> exists t :: 0 <= t < |output| && output[t].id == id
  {
    if output == [] then map[]
    else
      var n := |output| - 1;
      var last := output[n];
      MatchAt(res, output, n);
      assert Matches(res, output)[n] < |res|;
      assert forall t {:trigger output[t]} :: 0 <= t < n ==> output[..n][t] == output[t];
      Refreshes(prev, res, output[..n])[last.id := Refreshed(prev, res, last, Matches(res, output)[n])]
  }

  lemma OneMoreTrack(prev: Table, res: seq<Detection>, output: seq<STrack>, t: nat)
    requires t < |output|
    ensures var before := Matches(res, output[..t]);
            var m := Choice(res, Indices(before), output[t].box);
            && Matches(res, output[..t + 1]) == before + [m]
            && Refreshes(prev, res, output[..t + 1]) ==
               Refreshes(prev, res, output[..t])[output[t].id := Refreshed(prev, res, output[t], m)]
  {
    assert output[..t + 1][..t] == output[..t];
  }

  function Missed(e: Entry): Entry {
    e.(checked := false, lost := e.lost + 1)
  }

  // Refreshed entries as they are; the others one call older, or gone after MAX_LOST calls.
  function Aged(prev: Table, updates: Table): (r: Table) {
    map id | id in prev.Keys + updates.Keys && (id in updates || prev[id].lost < MAX_LOST)
      :: if id in updates then updates[id] else Missed(prev[id])
  }

  function Updated(prev: Table, res: seq<Detection>, output: seq<STrack>): Table {
    Aged(prev, Refreshes(prev, res, output))
  }

  // The three loops over the table: nobody checked, updates applied, the unchecked aged.
  function Unchecked(t: Table): Table {
    map id | id in t :: t[id].(checked := false)
  }

  function Kept(t: Table): Table {
    map id | id in t && !Gone(t[id]) :: Older(t[id])
  }

  function Older(e: Entry): Entry {
    if e.checked then e else e.(lost := e.lost + 1)
  }

  predicate Gone(e: Entry) {
    !e.checked && e.lost >= MAX_LOST
  }

  lemma {:induction false} RefreshesChecked(prev: Table, res: seq<Detection>, output: seq<STrack>)
    ensures forall id :: id in Refreshes(prev, res, output) ==> Refreshes(prev, res, output)[id].checked
    decreases |output|
  {
    if output != [] {
      RefreshesChecked(prev, res, output[..|output| - 1]);
    }
  }

  lemma AgedInSteps(prev: Table, updated: Table)
    requires forall id :: id in updated ==> updated[id].checked
    ensures Kept(Unchecked(prev) + updated) == Aged(prev, updated)
  {
    var a, b := Kept(Unchecked(prev) + updated), Aged(prev, updated);
    assert forall id :: id in a <==> id in b;
    assert forall id :: id in a ==> a[id] == b[id];
  }

  lemma SomeKey(keys: set<int>)
    requires keys != {}
    ensures exists id: int :: id in keys
  {
    assert (forall id: int :: id !in keys) ==> keys == {};
  }

  // A table with the updates among done applied.
  ghost predicate PartlyApplied(t: Table, was: Table, updated: Table, done: set<int>) {
    && (forall id :: id in t <==> id in was || id in done)
    && (forall id :: id in done ==> id in updated && id in t && t[id] == updated[id])
    && (forall id :: id in t && id !in done ==> id in was && t[id] == was[id])
  }

  lemma FullyApplied(t: Table, was: Table, updated: Table)
    requires PartlyApplied(t, was, updated, updated.Keys)
    ensures t == was + updated
  {
    assert forall id :: id in t <==> id in was + updated;
    assert forall id :: id in t ==> t[id] == (was + updated)[id];
  }

  class Tracker {
    var tracks: Table

    constructor ()
      ensures tracks == map[]
    {
      tracks := map[];
    }

    method UpdateTrackTable(res: seq<Detection>, output: seq<STrack>)
      modifies this
      ensures tracks == Updated(old(tracks), res, output)
    {
      var prev := tracks;
      var updated := BuildUpdates(prev, res, output);
      RefreshesChecked(prev, res, output);
      AgedInSteps(prev, updated);
      MarkUnchecked();
      Apply(updated);
      AgeOut();
    }

    method BuildUpdates(prev: Table, res: seq<Detection>, output: seq<STrack>) returns (updated: Table)
      ensures updated == Refreshes(prev, res, output)
    {
      var used := new bool[|res|](_ => false);
      updated := map[];
      var t := 0;
      while t < |output|
        invariant 0 <= t <= |output|
        invariant forall i :: 0 <= i < |res| ==> used[i] == (i in Matches(res, output[..t]))
        invariant updated == Refreshes(prev, res, output[..t])
      {
        ghost var before := Matches(res, output[..t]);
        OneMoreTrack(prev, res, output, t);
        var m := FindMatch(res, used, output[t].box, Indices(before));
        assert Matches(res, output[..t + 1]) == before + [m];
        if m >= 0 {
          used[m] := true;
        }
        updated := updated[output[t].id := Refreshed(prev, res, output[t], m)];
        t := t + 1;
      }
      assert output[..t] == output;
    }

    // The scan and the threshold test for one track.
    method FindMatch(res: seq<Detection>, used: array<bool>, box: Box, ghost taken: set<int>) returns (m: int)
      requires used.Length == |res| && forall i :: 0 <= i < |res| ==> used[i] == (i in taken)
      ensures m == Choice(res, taken, box)
    {
      var best, bestIoU := -1, 0.0;
      for i := 0 to |res|
        invariant (best, bestIoU) == Best(res, taken, box, i)
      {
        if !used[i] {
          var iou := IoU(box, res[i].box);
          if iou > bestIoU {
            bestIoU, best := iou, i;
          }
        }
      }
      m := if best >= 0 && bestIoU >= IOU_THRESHOLD then best else -1;
    }

    method MarkUnchecked()
      modifies this
      ensures tracks == Unchecked(old(tracks))
    {
      ghost var was := tracks;
      var keys: set<int> := tracks.Keys;
      while keys != {}
        invariant keys <= was.Keys && tracks.Keys == was.Keys
        invariant forall id :: id in keys ==> tracks[id] == was[id]
        invariant forall id :: id in was && id !in keys ==> tracks[id] == was[id].(checked := false)
        decreases |keys|
      {
        SomeKey(keys);
        var id: int :| id in keys;
        tracks := tracks[id := tracks[id].(checked := false)];
        keys := keys - {id};
      }
      assert forall id :: id in was ==> id !in keys;
      assert forall id :: id in was ==> tracks[id] == Unchecked(was)[id];
    }

    method Apply(updated: Table)
      modifies this
      ensures tracks == old(tracks) + updated
    {
      ghost var was := tracks;
      ghost var done: set<int> := {};
      var keys: set<int> := updated.Keys;
      while keys != {}
        invariant keys + done == updated.Keys && PartlyApplied(tracks, was, updated, done)
        decreases |keys|
      {
        SomeKey(keys);
        var id: int :| id in keys;
        tracks := tracks[id := updated[id]];
        keys := keys - {id};
        done := done + {id};
      }
      assert done == updated.Keys;
      FullyApplied(tracks, was, updated);
    }

    method AgeOut()
      modifies this
      ensures tracks == Kept(old(tracks))
    {
      ghost var was := tracks;
      var toRemove: set<int> := {};
      var keys: set<int> := tracks.Keys;
      while keys != {}
        invariant keys <= was.Keys && tracks.Keys == was.Keys
        invariant forall id :: id in keys ==> tracks[id] == was[id]
        invariant forall id :: id in was && id !in keys ==> tracks[id] == Older(was[id])
        invariant forall id :: id in toRemove <==> id in was && id !in keys && Gone(was[id])
        decreases |keys|
      {
        SomeKey(keys);
        var id: int :| id in keys;
        if !tracks[id].checked {
          tracks := tracks[id := tracks[id].(lost := tracks[id].lost + 1)];
          if tracks[id].lost > MAX_LOST {
            toRemove := toRemove + {id};
          }
        }
        keys := keys - {id};
      }
      assert forall id :: id in was ==> id !in keys;
      tracks := tracks - toRemove;
      assert forall id :: id in tracks <==> id in Kept(was);
      assert forall id :: id in tracks ==> tracks[id] == Kept(was)[id];
    }
  }

  // ---------- The table as a function of the calls ----------

  datatype Call = Call(res: seq<Detection>, output: seq<STrack>)

  function TableAfter(calls: seq<Call>): Table {
    if calls == [] then map[]
    else
      var last := calls[|calls| - 1];
      Updated(TableAfter(calls[..|calls| - 1]), last.res, last.output)
  }

  predicate Names(call: Call, id: int) {
    exists t :: 0 <= t < |call.output| && call.output[t].id == id
  }

  // The number of the last call that names the id, or -1.
  function LastSeen(calls: seq<Call>, id: int): (n: int)
    ensures -1 <= n < |calls|
    ensures n >= 0 ==> Names(calls[n], id)
    ensures forall i :: n < i < |calls| ==> !Names(calls[i], id)
  {
    if calls == [] then -1
    else if Names(calls[|calls| - 1], id) then |calls| - 1
    else LastSeen(calls[..|calls| - 1], id)
  }

  // Named by one of the last six calls.
  predicate Recent(calls: seq<Call>, id: int) {
    LastSeen(calls, id) >= 0 && |calls| - LastSeen(calls, id) <= 6
  }

  // The call that entered the id: it names the id and no recent call before it did.
  function Entered(calls: seq<Call>, id: int): (n: int)
    ensures -1 <= n <= LastSeen(calls, id)
    ensures n >= 0 ==> Names(calls[n], id) && !Recent(calls[..n], id)
    ensures forall i :: n < i < |calls| && Names(calls[i], id) ==> Recent(calls[..i], id)
    ensures n == -1 ==> LastSeen(calls, id) == -1
  {
    if calls == [] then -1
    else
      var n := |calls| - 1;
      var front := calls[..n];
      assert forall i :: 0 <= i < n ==> front[..i] == calls[..i];
      if Names(calls[n], id) && !Recent(front, id) then n else Entered(front, id)
  }

  function TimesNamed(calls: seq<Call>, id: int): nat {
    if calls == [] then 0
    else TimesNamed(calls[..|calls| - 1], id) + if Names(calls[|calls| - 1], id) then 1 else 0
  }

  // The last output track with the id, which overwrites the ones before.
  function LastIndex(output: seq<STrack>, id: int): (t: nat)
    requires exists t :: 0 <= t < |output| && output[t].id == id
    ensures t < |output| && output[t].id == id && forall u :: t < u < |output| ==> output[u].id != id
  {
    var n := |output| - 1;
    if output[n].id == id then n
    else
      assert forall t {:trigger output[t]} :: 0 <= t < n ==> output[..n][t] == output[t];
      LastIndex(output[..n], id)
  }

  // The box of that track, and the detection the greedy matching gave it.
  function LastBox(call: Call, id: int): Box
    requires Names(call, id)
  {
    call.output[LastIndex(call.output, id)].box
  }

  function LastDetection(call: Call, id: int): Detection
    requires Names(call, id)
  {
    var t := LastIndex(call.output, id);
    MatchAt(call.res, call.output, t);
    var m := Matches(call.res, call.output)[t];
    if m >= 0 then call.res[m] else Detection(call.output[t].box, call.output[t].score, 0.0)
  }

  // What the calls before `last` left of the id decides its velocity.
  ghost predicate Moved(before: seq<Call>, id: int, e: Entry) {
    if Recent(before, id) then
      var was := LastBox(before[LastSeen(before, id)], id);
      e.vx == e.box.x - was.x && e.vy == e.box.y - was.y
    else e.vx == 0.0 && e.vy == 0.0
  }

  ghost predicate Counted(calls: seq<Call>, id: int, e: Entry)
    requires LastSeen(calls, id) >= 0
  {
    var last, first := LastSeen(calls, id), Entered(calls, id);
    && e.lost == |calls| - 1 - last
    && 0 <= first && e.age == TimesNamed(calls[first..], id)
    && (e.checked <==> last == |calls| - 1)
  }

  ghost predicate Placed(call: Call, before: seq<Call>, id: int, e: Entry)
    requires Names(call, id)
  {
    e.box == LastBox(call, id) && e.det == LastDetection(call, id) && Moved(before, id, e)
  }

  ghost predicate Faithful(calls: seq<Call>, id: int, e: Entry)
    requires LastSeen(calls, id) >= 0
  {
    && Counted(calls, id, e)
    && Placed(calls[LastSeen(calls, id)], calls[..LastSeen(calls, id)], id, e)
  }

  lemma {:induction false} RefreshedEntry(prev: Table, res: seq<Detection>, output: seq<STrack>, id: int)
    requires id in Refreshes(prev, res, output)
    ensures var e, t := Refreshes(prev, res, output)[id], LastIndex(output, id);
            Matches(res, output)[t] < |res| && e == Refreshed(prev, res, output[t], Matches(res, output)[t])
    decreases |output|
  {
    var n := |output| - 1;
    if output[n].id != id {
      assert forall t {:trigger output[t]} :: 0 <= t < n ==> output[..n][t] == output[t];
      RefreshedEntry(prev, res, output[..n], id);
      MatchesPrefix(res, output, n);
    }
  }

  /** After any calls an id is in the table exactly when one of the last six named it. Its lost
      count is the number of calls since, its age the number of calls that named it since it
      entered; its box and its detection are those of the last call that named it, and its
      velocity is the way from its box at the call that named it before, or zero when that was
      too long ago. */
  lemma {:induction false} TableIsHistory(calls: seq<Call>, id: int)
    ensures id in TableAfter(calls) <==> Recent(calls, id)
    ensures id in TableAfter(calls) ==> Faithful(calls, id, TableAfter(calls)[id])
    decreases |calls|
  {
    if calls != [] {
      var front, last := calls[..|calls| - 1], calls[|calls| - 1];
      TableIsHistory(front, id);
      if Names(last, id) {
        NamedNow(calls, id);
      } else {
        assert id !in Refreshes(TableAfter(front), last.res, last.output);
        if Recent(front, id) {
          NamedAgain(calls, id, Entered(front, id));
          assert calls[..LastSeen(front, id)] == front[..LastSeen(front, id)];
        }
      }
    }
  }

  lemma NamedNow(calls: seq<Call>, id: int)
    requires calls != [] && Names(calls[|calls| - 1], id)
    requires var front := calls[..|calls| - 1];
             && (id in TableAfter(front) <==> Recent(front, id))
             && (id in TableAfter(front) ==> Faithful(front, id, TableAfter(front)[id]))
    ensures id in TableAfter(calls) && Faithful(calls, id, TableAfter(calls)[id])
  {
    var front, last := calls[..|calls| - 1], calls[|calls| - 1];
    RefreshedEntry(TableAfter(front), last.res, last.output, id);
    var e := TableAfter(calls)[id];
    PlacedNow(front, last, id, e);
    CountedNow(calls, id, TableAfter(front), e);
  }

  lemma CountedNow(calls: seq<Call>, id: int, prev: Table, e: Entry)
    requires calls != [] && Names(calls[|calls| - 1], id)
    requires var front := calls[..|calls| - 1];
             (id in prev <==> Recent(front, id)) && (id in prev ==> Counted(front, id, prev[id]))
    requires e.lost == 0 && e.checked && e.age == if id in prev then prev[id].age + 1 else 1
    ensures Counted(calls, id, e)
  {
    var front := calls[..|calls| - 1];
    if Recent(front, id) {
      NamedAgain(calls, id, Entered(front, id));
    } else {
      var last := [calls[|calls| - 1]];
      assert calls[|calls| - 1..] == last;
      assert last[..0] == [] && TimesNamed([], id) == 0;
    }
  }

  lemma PlacedNow(front: seq<Call>, last: Call, id: int, e: Entry)
    requires Names(last, id) && (id in TableAfter(front) <==> Recent(front, id))
    requires id in TableAfter(front) ==> Faithful(front, id, TableAfter(front)[id])
    requires var t := LastIndex(last.output, id);
      && Matches(last.res, last.output)[t] < |last.res|
      && e == Refreshed(TableAfter(front), last.res, last.output[t], Matches(last.res, last.output)[t])
    ensures Placed(last, front, id, e)
  {
  }

  lemma NamedAgain(calls: seq<Call>, id: int, first: nat)
    requires calls != [] && first < |calls| - 1
    ensures TimesNamed(calls[first..], id) ==
            TimesNamed(calls[..|calls| - 1][first..], id) + if Names(calls[|calls| - 1], id) then 1 else 0
  {
    var tail := calls[first..];
    assert tail[..|tail| - 1] == calls[..|calls| - 1][first..];
  }
}
