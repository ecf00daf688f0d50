/**
 * The EQ point editor of the main window, with the drawing taken away: a
 * list of points (frequency, gain, Q, kind) that the mouse handlers and the
 * check boxes edit, the visible frequency range, and the dB scale. After
 * most edits the list is normalised: the first LowShelf point is snapped
 * to 20 Hz and the first HighShelf point to 20 kHz (or such a shelf is
 * added when missing and no point lies within 1 Hz), and the list is
 * sorted by frequency. The point list becomes the band list the audio
 * engine receives.
 *
 * Screen coordinates are not modelled: the handlers receive the frequency
 * and gain the pointer position converts to.
 */
module EqEditor {
  import opened Wrappers
  import opened Numerics
  import EQ = Equalizer

  /** A point of the editor: `UiEqPoint` without its ellipse. */
  datatype Point = Point(freq: real, gain: real, q: real, kind: EQ.BandType)

  /** Every point is created with Q 0.1, whatever Q its creator asks for. */
  const PointQ: real := 0.1
  const LowShelfFreq: real := 20.0
  const HighShelfFreq: real := 20000.0
  const MaxPoints: nat := 16

  // ---------------------------------------------------------------------
  // Sorting by frequency (`OrderBy(p => p.Freq)`)
  // ---------------------------------------------------------------------

  predicate SortedByFreq(s: seq<Point>)
  {
    forall i, j :: 0 <= i < j < |s| ==> s[i].freq <= s[j].freq
  }

  /** Inserts `p` after every point whose frequency is not above its own, which keeps equal points in order. */
  function Insert(s: seq<Point>, p: Point): (r: seq<Point>)
    requires SortedByFreq(s)
    ensures SortedByFreq(r)
    ensures multiset(r) == multiset(s) + multiset{p}
    ensures |r| == |s| + 1
    ensures r[|r| - 1] == if s != [] && s[|s| - 1].freq > p.freq then s[|s| - 1] else p
  {
    if s == [] || s[|s| - 1].freq <= p.freq then
      s + [p]
    else
      var init, last := s[..|s| - 1], s[|s| - 1];
      assert s == init + [last];
      var r' := Insert(init, p);
      assert r'[|r'| - 1].freq <= last.freq;
      r' + [last]
  }

  /** A stable sort by frequency: the result is sorted and holds the same points. */
  function SortByFreq(s: seq<Point>): (r: seq<Point>)
    ensures SortedByFreq(r)
    ensures multiset(r) == multiset(s)
    ensures |r| == |s|
  {
    if s == [] then []
    else
      assert s == s[..|s| - 1] + [s[|s| - 1]];
      Insert(SortByFreq(s[..|s| - 1]), s[|s| - 1])
  }

  /** A list already in frequency order is left as it is. */
  lemma {:induction false} SortSorted(s: seq<Point>)
    requires SortedByFreq(s)
    ensures SortByFreq(s) == s
  {
    if s != [] {
      var init, last := s[..|s| - 1], s[|s| - 1];
      SortedInit(s);
      SortSorted(init);
      InsertAtEnd(init, last);
      assert s == init + [last];
      SortSnoc(init, last);
    }
  }

  /** Sorting one more point inserts it into the sorted rest. */
  lemma SortSnoc(init: seq<Point>, last: Point)
    ensures SortByFreq(init + [last]) == Insert(SortByFreq(init), last)
  {
    assert (init + [last])[..|init|] == init;
  }

  lemma SortedInit(s: seq<Point>)
    requires SortedByFreq(s) && s != []
    ensures SortedByFreq(s[..|s| - 1])
    ensures |s| > 1 ==> s[|s| - 2].freq <= s[|s| - 1].freq
  {
  }

  /** A point not below the last one is inserted at the end. */
  lemma InsertAtEnd(s: seq<Point>, p: Point)
    requires SortedByFreq(s) && (s == [] || s[|s| - 1].freq <= p.freq)
    ensures Insert(s, p) == s + [p]
  {
  }

  // ---------------------------------------------------------------------
  // Normalising the shelves (`UpdateEqStartEndPoints`)
  // ---------------------------------------------------------------------

  predicate HasKind(s: seq<Point>, kind: EQ.BandType)
  {
    exists i :: 0 <= i < |s| && s[i].kind == kind
  }

  /** The index of the first point of a kind (`FirstOrDefault`), or |s| when there is none. */
  function FirstOfKind(s: seq<Point>, kind: EQ.BandType): (i: nat)
    ensures i <= |s|
    ensures i < |s| ==> s[i].kind == kind
    ensures forall j :: 0 <= j < i ==> s[j].kind != kind
    ensures i == |s| <==> !HasKind(s, kind)
  {
    if s == [] then 0 else if s[0].kind == kind then 0 else 1 + FirstOfKind(s[1..], kind)
  }

  /** Some point lies within 1 Hz of `f`. */
  predicate AnyNear(s: seq<Point>, f: real)
  {
    exists i :: 0 <= i < |s| && Abs(s[i].freq - f) < 1.0
  }

  /**
   * Snap the first point of `kind` to `f`; if there is none, add a 0 dB
   * point of that kind at `f` unless some point is already within 1 Hz.
   */
  function EnsureShelf(s: seq<Point>, kind: EQ.BandType, f: real): seq<Point>
  {
    var i := FirstOfKind(s, kind);
    if i < |s| then s[i := s[i].(freq := f)]
    else if !AnyNear(s, f) then s + [Point(f, 0.0, PointQ, kind)]
    else s
  }

  /** The point list after `UpdateEqStartEndPoints`. */
  function Normalized(s: seq<Point>): seq<Point>
  {
    SortByFreq(EnsureShelf(EnsureShelf(s, EQ.LowShelf, LowShelfFreq), EQ.HighShelf, HighShelfFreq))
  }

  lemma MultisetUpdate(s: seq<Point>, i: nat, v: Point)
    requires i < |s|
    ensures multiset(s[i := v]) == multiset(s) - multiset{s[i]} + multiset{v}
  {
    assert s == s[..i] + [s[i]] + s[i + 1..];
    assert s[i := v] == s[..i] + [v] + s[i + 1..];
  }

  /** Ensuring a shelf changes or adds a point of that kind only. */
  lemma EnsureShelfOthers(s: seq<Point>, kind: EQ.BandType, f: real, p: Point)
    requires p.kind != kind
    ensures multiset(EnsureShelf(s, kind, f))[p] == multiset(s)[p]
  {
    var i := FirstOfKind(s, kind);
    if i < |s| {
      MultisetUpdate(s, i, s[i].(freq := f));
    }
  }

  /** Normalising neither adds, removes nor moves a Peaking point. */
  lemma UpdateKeepsPeaking(s: seq<Point>, p: Point)
    requires p.kind == EQ.Peaking
    ensures multiset(Normalized(s))[p] == multiset(s)[p]
  {
    var t := EnsureShelf(s, EQ.LowShelf, LowShelfFreq);
    EnsureShelfOthers(s, EQ.LowShelf, LowShelfFreq, p);
    EnsureShelfOthers(t, EQ.HighShelf, HighShelfFreq, p);
  }

  /** Normalising adds at most the two shelves. */
  lemma UpdateLength(s: seq<Point>)
    ensures |s| <= |Normalized(s)| <= |s| + 2
  {
  }

  /** An existing shelf of a kind is snapped, and a later shelf step for the other kind keeps it. */
  lemma EnsureShelfSnaps(s: seq<Point>, kind: EQ.BandType, f: real)
    requires HasKind(s, kind)
    ensures s[FirstOfKind(s, kind)].(freq := f) in EnsureShelf(s, kind, f)
  {
    var i := FirstOfKind(s, kind);
    assert EnsureShelf(s, kind, f)[i] == s[i].(freq := f);
  }

  lemma InAfterOtherShelf(s: seq<Point>, kind: EQ.BandType, f: real, p: Point)
    requires p in s && p.kind != kind
    ensures p in EnsureShelf(s, kind, f)
  {
    EnsureShelfOthers(s, kind, f, p);
  }

  /** The points handed to the sort all come out of it. */
  lemma InNormalized(s: seq<Point>, p: Point)
    requires p in EnsureShelf(EnsureShelf(s, EQ.LowShelf, LowShelfFreq), EQ.HighShelf, HighShelfFreq)
    ensures p in Normalized(s)
  {
    var u := EnsureShelf(EnsureShelf(s, EQ.LowShelf, LowShelfFreq), EQ.HighShelf, HighShelfFreq);
    assert multiset(Normalized(s)) == multiset(u);
    assert p in multiset(u);
  }

  /** After normalising, the first LowShelf point of the old list is at 20 Hz, and nothing else about it has changed. */
  lemma UpdateSnapsLowShelf(s: seq<Point>)
    requires HasKind(s, EQ.LowShelf)
    ensures s[FirstOfKind(s, EQ.LowShelf)].(freq := LowShelfFreq) in Normalized(s)
  {
    var t := EnsureShelf(s, EQ.LowShelf, LowShelfFreq);
    var p := s[FirstOfKind(s, EQ.LowShelf)].(freq := LowShelfFreq);
    EnsureShelfSnaps(s, EQ.LowShelf, LowShelfFreq);
    InAfterOtherShelf(t, EQ.HighShelf, HighShelfFreq, p);
    InNormalized(s, p);
  }

  /** After normalising, the first HighShelf point of the old list is at 20 kHz, and nothing else about it has changed. */
  lemma UpdateSnapsHighShelf(s: seq<Point>)
    requires HasKind(s, EQ.HighShelf)
    ensures s[FirstOfKind(s, EQ.HighShelf)].(freq := HighShelfFreq) in Normalized(s)
  {
    var t := EnsureShelf(s, EQ.LowShelf, LowShelfFreq);
    var j := FirstOfKind(s, EQ.HighShelf);
    assert |s| <= |t| && forall k :: 0 <= k < |s| ==> t[k].kind == s[k].kind;
    FirstOfKindPrefix(s, t, EQ.HighShelf);
    assert t[j] == s[j];
    EnsureShelfSnaps(t, EQ.HighShelf, HighShelfFreq);
    InNormalized(s, s[j].(freq := HighShelfFreq));
  }

  /** The first point of a kind is found at the same place in a list that agrees on kinds up to it. */
  lemma FirstOfKindPrefix(s: seq<Point>, t: seq<Point>, kind: EQ.BandType)
    requires |s| <= |t|
    requires forall k :: 0 <= k < |s| ==> t[k].kind == s[k].kind
    requires HasKind(s, kind)
    ensures FirstOfKind(t, kind) == FirstOfKind(s, kind)
  {
  }

  /** A missing LowShelf is added at 20 Hz with 0 dB unless a point is already within 1 Hz of it. */
  lemma UpdateAddsLowShelf(s: seq<Point>)
    requires !HasKind(s, EQ.LowShelf) && !AnyNear(s, LowShelfFreq)
    ensures Point(LowShelfFreq, 0.0, PointQ, EQ.LowShelf) in Normalized(s)
  {
    var low := Point(LowShelfFreq, 0.0, PointQ, EQ.LowShelf);
    var t := EnsureShelf(s, EQ.LowShelf, LowShelfFreq);
    assert t == s + [low];
    assert t[|s|] == low;
    InAfterOtherShelf(t, EQ.HighShelf, HighShelfFreq, low);
    InNormalized(s, low);
  }

  /**
   * A missing HighShelf is added at 20 kHz with 0 dB unless a point is
   * already within 1 Hz of it once the LowShelf step is done.
   */
  lemma UpdateAddsHighShelf(s: seq<Point>)
    requires !HasKind(s, EQ.HighShelf)
    requires !AnyNear(EnsureShelf(s, EQ.LowShelf, LowShelfFreq), HighShelfFreq)
    ensures Point(HighShelfFreq, 0.0, PointQ, EQ.HighShelf) in Normalized(s)
  {
    var high := Point(HighShelfFreq, 0.0, PointQ, EQ.HighShelf);
    var t := EnsureShelf(s, EQ.LowShelf, LowShelfFreq);
    var u := EnsureShelf(t, EQ.HighShelf, HighShelfFreq);
    assert !HasKind(t, EQ.HighShelf) by {
      EnsureShelfOthersKinds(s, EQ.LowShelf, LowShelfFreq, EQ.HighShelf);
    }
    assert u == t + [high];
    assert u[|t|] == high;
    InNormalized(s, high);
  }

  /** Ensuring a shelf of one kind creates no point of another kind. */
  lemma EnsureShelfOthersKinds(s: seq<Point>, kind: EQ.BandType, f: real, other: EQ.BandType)
    requires other != kind && !HasKind(s, other)
    ensures !HasKind(EnsureShelf(s, kind, f), other)
  {
    var t := EnsureShelf(s, kind, f);
    assert forall k :: 0 <= k < |s| ==> t[k].kind == s[k].kind;
    assert |t| > |s| ==> t[|s|].kind == kind;
  }

  /** Normalising keeps the kind of every point, so a kind present before is present after. */
  lemma UpdateKeepsKinds(s: seq<Point>, kind: EQ.BandType)
    requires HasKind(s, kind)
    ensures HasKind(Normalized(s), kind)
  {
    var t := EnsureShelf(s, EQ.LowShelf, LowShelfFreq);
    var u := EnsureShelf(t, EQ.HighShelf, HighShelfFreq);
    var i := FirstOfKind(s, kind);
    assert t[i].kind == kind;
    assert u[i].kind == kind;
    InNormalized(s, u[i]);
    var n := Normalized(s);
    var k :| 0 <= k < |n| && n[k] == u[i];
  }

  predicate AllPointQ(s: seq<Point>)
  {
    forall i :: 0 <= i < |s| ==> s[i].q == PointQ
  }

  /** Every point of the normalised list comes from the list or is a new shelf, so all keep Q 0.1. */
  lemma UpdateKeepsQ(s: seq<Point>)
    requires AllPointQ(s)
    ensures AllPointQ(Normalized(s))
  {
    var t := EnsureShelf(s, EQ.LowShelf, LowShelfFreq);
    var u := EnsureShelf(t, EQ.HighShelf, HighShelfFreq);
    assert AllPointQ(t);
    assert AllPointQ(u);
    var n := Normalized(s);
    forall i | 0 <= i < |n|
      ensures n[i].q == PointQ
    {
      assert n[i] in multiset(u);
    }
  }

  // ---------------------------------------------------------------------
  // The band list sent to the engine (`UpdateAudioEq`)
  // ---------------------------------------------------------------------

  /** In flat mode the master gain is the gain of the lowest-frequency point; otherwise 0 dB. */
  function MasterDb(sorted: seq<Point>, flatMode: bool): real
  {
    if flatMode && |sorted| > 0 then sorted[0].gain else 0.0
  }

  function BandOf(p: Point, masterDb: real): EQ.EqBand
  {
    EQ.EqBand(p.freq, p.gain - masterDb, p.q, p.kind)
  }

  /**
   * The master gain in dB and the band list sent to the engine: nothing
   * when the boost is off, otherwise one band per point in frequency
   * order, its gain relative to the master gain.
   */
  function EngineEq(points: seq<Point>, boostEnabled: bool, flatMode: bool): (real, seq<EQ.EqBand>)
  {
    if !boostEnabled then (0.0, [])
    else
      var sorted := SortByFreq(points);
      var m := MasterDb(sorted, flatMode);
      (m, seq(|sorted|, i requires 0 <= i < |sorted| => BandOf(sorted[i], m)))
  }

  /** The bands are in ascending frequency. */
  lemma EngineBandsAscend(points: seq<Point>, boostEnabled: bool, flatMode: bool)
    ensures var bands := EngineEq(points, boostEnabled, flatMode).1;
            forall i, j :: 0 <= i < j < |bands| ==> bands[i].frequency <= bands[j].frequency
  {
    if boostEnabled {
      var sorted := SortByFreq(points);
      var bands := EngineEq(points, boostEnabled, flatMode).1;
      forall i, j | 0 <= i < j < |bands|
        ensures bands[i].frequency <= bands[j].frequency
      {
        assert bands[i].frequency == sorted[i].freq && bands[j].frequency == sorted[j].freq;
      }
    }
  }

  /** The point a band and the master gain stand for. */
  function PointOf(b: EQ.EqBand, masterDb: real): Point
  {
    Point(b.frequency, masterDb + b.gain, b.q, b.kind)
  }

  /**
   * With the boost on, adding the master gain back to each band gives
   * exactly the editor's points: one band per point, none lost or added.
   */
  lemma EngineBandsArePoints(points: seq<Point>, flatMode: bool)
    ensures var (m, bands) := EngineEq(points, true, flatMode);
            multiset(seq(|bands|, i requires 0 <= i < |bands| => PointOf(bands[i], m))) == multiset(points)
  {
    var sorted := SortByFreq(points);
    var (m, bands) := EngineEq(points, true, flatMode);
    var back := seq(|bands|, i requires 0 <= i < |bands| => PointOf(bands[i], m));
    assert back == sorted by {
      forall i | 0 <= i < |sorted|
        ensures back[i] == sorted[i]
      {
        assert bands[i] == BandOf(sorted[i], m);
      }
    }
  }

  /** In flat mode, when every point has the same gain, the master carries it and every band is 0 dB. */
  lemma EngineFlat(points: seq<Point>, g: real)
    requires |points| > 0
    requires forall i :: 0 <= i < |points| ==> points[i].gain == g
    ensures EngineEq(points, true, true).0 == g
    ensures forall b :: b in EngineEq(points, true, true).1 ==> b.gain == 0.0
  {
    var sorted := SortByFreq(points);
    assert forall i :: 0 <= i < |sorted| ==> sorted[i].gain == g by {
      forall i | 0 <= i < |sorted|
        ensures sorted[i].gain == g
      {
        assert sorted[i] in multiset(points);
      }
    }
  }

  /** With the boost off the engine gets 0 dB and no bands, whatever the points. */
  lemma EngineBypass(points: seq<Point>, flatMode: bool)
    ensures EngineEq(points, false, flatMode) == (0.0, [])
    ensures EngineEq(points, true, flatMode).1 != [] <==> points != []
  {
    assert |SortByFreq(points)| == |points|;
  }

  // ---------------------------------------------------------------------
  // The visible frequency range (`FreqRange_Changed`)
  // ---------------------------------------------------------------------

  const LowestViewFreq: real := 20.0
  const HighestViewFreq: real := 24000.0

  /**
   * The range after the two text boxes are read (None where `TryParse`
   * fails and the old value stays): the minimum is raised to 20 Hz, the
   * maximum lowered to 24 kHz, and a minimum not below the maximum is
   * moved to 100 Hz under it.
   */
  function FreqRange(minFreq: real, maxFreq: real, parsedMin: Option<real>, parsedMax: Option<real>): (r: (real, real))
    ensures r.1 <= HighestViewFreq && r.0 < r.1
    ensures r.1 >= LowestViewFreq + 100.0 ==> r.0 >= LowestViewFreq
    ensures var lo := if parsedMin.Some? then parsedMin.value else minFreq;
            var hi := if parsedMax.Some? then parsedMax.value else maxFreq;
            LowestViewFreq <= lo < hi <= HighestViewFreq ==> r == (lo, hi)
  {
    var lo := if parsedMin.Some? then parsedMin.value else minFreq;
    var hi := if parsedMax.Some? then parsedMax.value else maxFreq;
    var lo' := if lo < LowestViewFreq then LowestViewFreq else lo;
    var hi' := if hi > HighestViewFreq then HighestViewFreq else hi;
    if lo' >= hi' then (hi' - 100.0, hi') else (lo', hi')
  }

  /** Below 120 Hz for the maximum, the minimum may fall under 20 Hz: the last rule overrides the first. */
  lemma FreqRangeFloorLost()
    ensures FreqRange(20.0, 20000.0, Some(100.0), Some(50.0)) == (-50.0, 50.0)
  {
  }

  // ---------------------------------------------------------------------
  // Adding, dragging and removing points
  // ---------------------------------------------------------------------

  /** A new point is added (and the list normalised) only while fewer than 16 points exist. */
  function WithPoint(s: seq<Point>, p: Point): seq<Point>
  {
    if |s| < MaxPoints then Normalized(s + [p]) else s
  }

  /** Below the cap, adding a Peaking point adds exactly that one Peaking point. */
  lemma AddPointEffect(s: seq<Point>, p: Point, other: Point)
    requires p.kind == EQ.Peaking && other.kind == EQ.Peaking
    ensures |s| >= MaxPoints ==> WithPoint(s, p) == s
    ensures |s| < MaxPoints ==>
              multiset(WithPoint(s, p))[other] == multiset(s)[other] + (if other == p then 1 else 0)
  {
    if |s| < MaxPoints {
      UpdateKeepsPeaking(s + [p], other);
    }
  }

  /** Right-click removal: only a Peaking target is removed, and the list is then normalised. */
  function WithoutPoint(s: seq<Point>, hit: Option<nat>): seq<Point>
    requires hit.Some? ==> hit.value < |s|
  {
    if hit.Some? && s[hit.value].kind == EQ.Peaking then
      Normalized(s[..hit.value] + s[hit.value + 1..])
    else s
  }

  /** Removing takes away one copy of the Peaking target and no other Peaking point. */
  lemma RemovePointEffect(s: seq<Point>, hit: Option<nat>, other: Point)
    requires hit.Some? ==> hit.value < |s|
    requires other.kind == EQ.Peaking
    ensures multiset(WithoutPoint(s, hit))[other]
              == multiset(s)[other] - (if hit.Some? && s[hit.value] == other then 1 else 0)
  {
    if hit.Some? && s[hit.value].kind == EQ.Peaking {
      var i := hit.value;
      assert s == s[..i] + [s[i]] + s[i + 1..];
      UpdateKeepsPeaking(s[..i] + s[i + 1..], other);
    }
  }

  /** Deleting a point of another kind keeps a kind present. */
  lemma DeleteKeepsKind(s: seq<Point>, i: nat, kind: EQ.BandType)
    requires i < |s| && s[i].kind != kind && HasKind(s, kind)
    ensures HasKind(s[..i] + s[i + 1..], kind)
  {
    var rest := s[..i] + s[i + 1..];
    var k := FirstOfKind(s, kind);
    if k < i {
      assert rest[k] == s[k];
    } else {
      assert rest[k - 1] == s[k];
    }
  }

  /** A shelf can never be removed: every kind present before a right-click is present after. */
  lemma RemoveKeepsShelves(s: seq<Point>, hit: Option<nat>, kind: EQ.BandType)
    requires hit.Some? ==> hit.value < |s|
    requires kind != EQ.Peaking && HasKind(s, kind)
    ensures HasKind(WithoutPoint(s, hit), kind)
  {
    if hit.Some? && s[hit.value].kind == EQ.Peaking {
      var i := hit.value;
      DeleteKeepsKind(s, i, kind);
      UpdateKeepsKinds(s[..i] + s[i + 1..], kind);
    }
  }

  /** Every point takes the same gain (the flat-mode click and drag). */
  function WithAllGains(s: seq<Point>, gain: real): (r: seq<Point>)
    ensures |r| == |s|
    ensures forall i :: 0 <= i < |r| ==> r[i] == s[i].(gain := gain)
  {
    seq(|s|, i requires 0 <= i < |s| => s[i].(gain := gain))
  }

  /**
   * Dragging point `i`: in flat mode every gain follows; otherwise the
   * point takes the new gain, and the new frequency too unless it is a
   * shelf or sits within 0.1 Hz of an edge of the visible range.
   */
  function Dragged(s: seq<Point>, i: nat, freq: real, gain: real, minFreq: real, maxFreq: real, flatMode: bool): seq<Point>
    requires i < |s|
  {
    if flatMode then WithAllGains(s, gain)
    else
      var p := s[i];
      var edge := Abs(p.freq - minFreq) < 0.1 || Abs(p.freq - maxFreq) < 0.1 || p.kind != EQ.Peaking;
      s[i := if edge then p.(gain := gain) else p.(freq := freq, gain := gain)]
  }

  /** A drag never changes a kind or a Q, and moves the frequency only of the dragged Peaking point. */
  lemma DragKeepsShelvesInPlace(s: seq<Point>, i: nat, freq: real, gain: real, minFreq: real, maxFreq: real, flatMode: bool)
    requires i < |s|
    ensures var r := Dragged(s, i, freq, gain, minFreq, maxFreq, flatMode);
            |r| == |s| &&
            (forall k :: 0 <= k < |s| ==> r[k].kind == s[k].kind && r[k].q == s[k].q) &&
            (forall k :: 0 <= k < |s| && r[k].freq != s[k].freq ==> k == i && s[k].kind == EQ.Peaking)
  {
  }

  /** After a flat-mode edit every point has the given gain, so the engine gets flat bands under that master gain. */
  lemma FlatEditIsFlat(s: seq<Point>, gain: real)
    requires |s| > 0
    ensures EngineEq(WithAllGains(s, gain), true, true).0 == gain
    ensures forall b :: b in EngineEq(WithAllGains(s, gain), true, true).1 ==> b.gain == 0.0
  {
    EngineFlat(WithAllGains(s, gain), gain);
  }

  // ---------------------------------------------------------------------
  // Flat mode (`FlatMode_Changed`)
  // ---------------------------------------------------------------------

  /** The gain of the first point within 1 Hz of 20 Hz, or 0 dB when there is none. */
  function LowGain(s: seq<Point>): real
  {
    if s == [] then 0.0
    else if Abs(s[0].freq - LowShelfFreq) < 1.0 then s[0].gain
    else LowGain(s[1..])
  }

  /** The two points flat mode leaves: shelves at 20 Hz and 20 kHz with the same gain. */
  function FlatPair(gain: real): seq<Point>
  {
    [Point(LowShelfFreq, gain, PointQ, EQ.LowShelf), Point(HighShelfFreq, gain, PointQ, EQ.HighShelf)]
  }

  /** The flat pair is already normalised. */
  lemma FlatPairNormalized(gain: real)
    ensures Normalized(FlatPair(gain)) == FlatPair(gain)
    ensures AllPointQ(FlatPair(gain))
  {
    var s := FlatPair(gain);
    assert FirstOfKind(s, EQ.LowShelf) == 0;
    assert EnsureShelf(s, EQ.LowShelf, LowShelfFreq) == s;
    assert FirstOfKind(s, EQ.HighShelf) == 1;
    assert EnsureShelf(s, EQ.HighShelf, HighShelfFreq) == s;
    SortSorted(s);
  }

  /** The gain flat mode keeps is that of a point near 20 Hz, or 0 dB when no point is there. */
  lemma {:induction false} LowGainFound(s: seq<Point>)
    ensures AnyNear(s, LowShelfFreq) ==> exists i :: 0 <= i < |s| && Abs(s[i].freq - LowShelfFreq) < 1.0 && LowGain(s) == s[i].gain
    ensures !AnyNear(s, LowShelfFreq) ==> LowGain(s) == 0.0
  {
    if s != [] {
      LowGainFound(s[1..]);
      if Abs(s[0].freq - LowShelfFreq) >= 1.0 {
        if AnyNear(s, LowShelfFreq) {
          var i :| 0 <= i < |s| && Abs(s[i].freq - LowShelfFreq) < 1.0;
          assert s[1..][i - 1] == s[i];
        }
        if AnyNear(s[1..], LowShelfFreq) {
          var j :| 0 <= j < |s[1..]| && Abs(s[1..][j].freq - LowShelfFreq) < 1.0 && LowGain(s[1..]) == s[1..][j].gain;
          assert s[j + 1] == s[1..][j];
        }
      }
    }
  }

  // ---------------------------------------------------------------------
  // Gain <-> vertical position on the curve canvas (`DbToY`, `YToDb`)
  // ---------------------------------------------------------------------

  const ScreenPaddingY: real := 20.0

  /** The vertical position of a gain: +maxDb at the top padding, -maxDb at the bottom one. */
  function DbToY(db: real, canvasHeight: real, maxDb: real): real
    requires maxDb != 0.0
  {
    ScreenPaddingY + ((maxDb - db) / (maxDb * 2.0)) * (canvasHeight - ScreenPaddingY * 2.0)
  }

  /** The gain at a vertical position; None when the drawable height is zero (a division by zero). */
  function YToDb(y: real, canvasHeight: real, maxDb: real): Option<real>
  {
    var safeH := canvasHeight - ScreenPaddingY * 2.0;
    if safeH == 0.0 then None
    else Some(maxDb - ((y - ScreenPaddingY) / safeH) * (maxDb * 2.0))
  }

  /** The top and bottom of the drawable band are +maxDb and -maxDb. */
  lemma DbToYEnds(canvasHeight: real, maxDb: real)
    requires maxDb != 0.0
    ensures DbToY(maxDb, canvasHeight, maxDb) == ScreenPaddingY
    ensures DbToY(-maxDb, canvasHeight, maxDb) == canvasHeight - ScreenPaddingY
  {
    assert (maxDb - -maxDb) / (maxDb * 2.0) == 1.0;
  }

  /** A higher gain is drawn higher (at a smaller y) when the canvas has room. */
  lemma DbToYDecreasing(db1: real, db2: real, canvasHeight: real, maxDb: real)
    requires maxDb > 0.0 && canvasHeight > ScreenPaddingY * 2.0 && db1 < db2
    ensures DbToY(db2, canvasHeight, maxDb) < DbToY(db1, canvasHeight, maxDb)
  {
    var range := maxDb * 2.0;
    var safeH := canvasHeight - ScreenPaddingY * 2.0;
    var r1 := (maxDb - db1) / range;
    var r2 := (maxDb - db2) / range;
    assert r1 - r2 == (db2 - db1) / range;
    assert r2 < r1;
    assert r1 * safeH - r2 * safeH == (r1 - r2) * safeH;
  }

  /** Reading back the gain at the position a gain is drawn gives that gain. */
  lemma DbToYRoundTrip(db: real, canvasHeight: real, maxDb: real)
    requires maxDb != 0.0 && canvasHeight != ScreenPaddingY * 2.0
    ensures YToDb(DbToY(db, canvasHeight, maxDb), canvasHeight, maxDb) == Some(db)
  {
    var range := maxDb * 2.0;
    var safeH := canvasHeight - ScreenPaddingY * 2.0;
    var ratio := (maxDb - db) / range;
    var y := DbToY(db, canvasHeight, maxDb);
    assert y - ScreenPaddingY == ratio * safeH;
    assert (y - ScreenPaddingY) / safeH == ratio;
    assert ratio * range == maxDb - db;
  }

  /** Drawing the gain read at a position puts it back at that position. */
  lemma YToDbRoundTrip(y: real, canvasHeight: real, maxDb: real)
    requires maxDb != 0.0 && canvasHeight != ScreenPaddingY * 2.0
    ensures YToDb(y, canvasHeight, maxDb).Some?
    ensures DbToY(YToDb(y, canvasHeight, maxDb).value, canvasHeight, maxDb) == y
  {
    var range := maxDb * 2.0;
    var safeH := canvasHeight - ScreenPaddingY * 2.0;
    var ratio := (y - ScreenPaddingY) / safeH;
    var db := YToDb(y, canvasHeight, maxDb).value;
    assert maxDb - db == ratio * range;
    assert (maxDb - db) / range == ratio;
    assert ratio * safeH == y - ScreenPaddingY;
  }

  // ---------------------------------------------------------------------
  // The drawn response curve (`GetInterpolatedDb`)
  // ---------------------------------------------------------------------

  /** log10 is strictly increasing on the positive reals. */
  ghost predicate LogIncreasing(log10: real -> real)
  {
    forall x: real, y: real :: 0.0 < x < y ==> log10(x) < log10(y)
  }

  predicate Between(x: real, a: real, b: real)
  {
    Min(a, b) <= x <= Max(a, b)
  }

  /** Linear interpolation on the log-frequency axis between two points; None where the C# division yields no finite value (equal logarithms). */
  function Lerp(freq: real, p1: Point, p2: Point, log10: real -> real): Option<real>
  {
    var span := log10(p2.freq) - log10(p1.freq);
    if span == 0.0 then None
    else Some(p1.gain + ((log10(freq) - log10(p1.freq)) / span) * (p2.gain - p1.gain))
  }

  /** The segment search from index `i`: the first segment that contains `freq`, or 0 dB when none does. */
  function Segment(freq: real, pts: seq<Point>, i: nat, log10: real -> real): Option<real>
    decreases |pts| - i
  {
    if i + 1 >= |pts| then Some(0.0)
    else if pts[i].freq <= freq <= pts[i + 1].freq then Lerp(freq, pts[i], pts[i + 1], log10)
    else Segment(freq, pts, i + 1, log10)
  }

  /** The gain the curve shows at `freq`: the end gains outside the points, the segment's interpolation between them. */
  function Interpolated(freq: real, pts: seq<Point>, log10: real -> real): Option<real>
  {
    if |pts| == 0 then Some(0.0)
    else if freq <= pts[0].freq then Some(pts[0].gain)
    else if freq >= pts[|pts| - 1].freq then Some(pts[|pts| - 1].gain)
    else Segment(freq, pts, 0, log10)
  }

  /** The interpolation lands between the gains of the segment's two ends. */
  lemma LerpBetween(freq: real, p1: Point, p2: Point, log10: real -> real)
    requires log10(p1.freq) < log10(freq) <= log10(p2.freq)
    ensures Lerp(freq, p1, p2, log10).Some?
    ensures Between(Lerp(freq, p1, p2, log10).value, p1.gain, p2.gain)
  {
    var span := log10(p2.freq) - log10(p1.freq);
    var t := (log10(freq) - log10(p1.freq)) / span;
    UnitFraction(log10(freq) - log10(p1.freq), span);
    StepBetween(t, p1.gain, p2.gain);
  }

  /** A positive part of a span is a fraction in (0, 1]. */
  lemma UnitFraction(x: real, span: real)
    requires 0.0 < x <= span
    ensures 0.0 < x / span <= 1.0
  {
  }

  /** Stepping a fraction t of the way from a to b stays between a and b. */
  lemma StepBetween(t: real, a: real, b: real)
    requires 0.0 <= t <= 1.0
    ensures Between(a + t * (b - a), a, b)
  {
    var d := b - a;
    if d >= 0.0 {
      NonNegativeProduct(t, d);
      NonNegativeProduct(1.0 - t, d);
      assert (1.0 - t) * d == d - t * d;
    } else {
      NonNegativeProduct(t, -d);
      NonNegativeProduct(1.0 - t, -d);
      assert t * -d == -(t * d);
      assert (1.0 - t) * -d == t * d - d;
    }
  }

  lemma NonNegativeProduct(x: real, y: real)
    requires x >= 0.0 && y >= 0.0
    ensures x * y >= 0.0
  {
  }

  /** The search stops at the first segment holding `freq`. */
  lemma SegmentFound(freq: real, pts: seq<Point>, i: nat, log10: real -> real)
    requires LogIncreasing(log10)
    requires i + 1 < |pts| && 0.0 < pts[i].freq < freq <= pts[i + 1].freq
    ensures Segment(freq, pts, i, log10).Some?
    ensures Between(Segment(freq, pts, i, log10).value, pts[i].gain, pts[i + 1].gain)
  {
    assert log10(pts[i].freq) < log10(freq);
    if freq < pts[i + 1].freq {
      assert log10(freq) < log10(pts[i + 1].freq);
    }
    LerpBetween(freq, pts[i], pts[i + 1], log10);
  }

  /**
   * The search, started at a point below `freq`, finds a segment `k` that
   * holds `freq` and returns a gain between the segment's two gains.
   */
  lemma {:induction false} SegmentBetween(freq: real, pts: seq<Point>, i: nat, log10: real -> real) returns (k: nat)
    requires LogIncreasing(log10)
    requires forall j :: 0 <= j < |pts| ==> pts[j].freq > 0.0
    requires i + 1 < |pts| && pts[i].freq < freq < pts[|pts| - 1].freq
    ensures i <= k < |pts| - 1 && pts[k].freq < freq <= pts[k + 1].freq
    ensures Segment(freq, pts, i, log10).Some?
    ensures Between(Segment(freq, pts, i, log10).value, pts[k].gain, pts[k + 1].gain)
    decreases |pts| - i
  {
    if freq <= pts[i + 1].freq {
      SegmentFound(freq, pts, i, log10);
      k := i;
    } else {
      k := SegmentBetween(freq, pts, i + 1, log10);
    }
  }

  /**
   * For points sorted by frequency, all positive, the curve has a value
   * at every frequency: the nearest end gain outside the points, and
   * inside them a value between the gains of the two neighbouring points.
   */
  lemma InterpolatedBetween(freq: real, pts: seq<Point>, log10: real -> real)
    requires SortedByFreq(pts) && LogIncreasing(log10) && |pts| > 0
    requires forall k :: 0 <= k < |pts| ==> pts[k].freq > 0.0
    ensures Interpolated(freq, pts, log10).Some?
    ensures freq <= pts[0].freq ==> Interpolated(freq, pts, log10).value == pts[0].gain
    ensures pts[0].freq < freq && pts[|pts| - 1].freq <= freq ==>
              Interpolated(freq, pts, log10).value == pts[|pts| - 1].gain
    ensures pts[0].freq < freq < pts[|pts| - 1].freq ==>
              exists k :: 0 <= k < |pts| - 1 && pts[k].freq < freq <= pts[k + 1].freq &&
                          Between(Interpolated(freq, pts, log10).value, pts[k].gain, pts[k + 1].gain)
  {
    if pts[0].freq < freq < pts[|pts| - 1].freq {
      var k := SegmentBetween(freq, pts, 0, log10);
    }
  }

  /** `GetInterpolatedDb`: the end gains outside the points, otherwise a search for the segment holding `freq`. */
  method GetInterpolatedDb(freq: real, sortedPoints: seq<Point>, log10: real -> real) returns (r: Option<real>)
    ensures r == Interpolated(freq, sortedPoints, log10)
  {
    var n := |sortedPoints|;
    if n == 0 {
      return Some(0.0);
    }
    if freq <= sortedPoints[0].freq {
      return Some(sortedPoints[0].gain);
    }
    if freq >= sortedPoints[n - 1].freq {
      return Some(sortedPoints[n - 1].gain);
    }
    var i := 0;
    while i < n - 1
      invariant 0 <= i <= n - 1
      invariant Segment(freq, sortedPoints, i, log10) == Segment(freq, sortedPoints, 0, log10)
    {
      var p1 := sortedPoints[i];
      var p2 := sortedPoints[i + 1];
      if p1.freq <= freq <= p2.freq {
        return Lerp(freq, p1, p2, log10);
      }
      i := i + 1;
    }
    return Some(0.0);
  }

  /** A point of the editor built from a saved band: a Peaking point with Q 0.1. */
  function PeakingPoint(b: EQ.EqBand): Point
  {
    Point(b.frequency, b.gain, PointQ, EQ.Peaking)
  }

  /** The points `LoadSettings` creates before normalising: the saved bands, or a flat pair at 0 dB when none are saved. */
  function Loaded(bands: seq<EQ.EqBand>): seq<Point>
  {
    if |bands| == 0 then FlatPair(0.0)
    else seq(|bands|, k requires 0 <= k < |bands| => PeakingPoint(bands[k]))
  }

  /** Every saved band comes back as a Peaking point of the editor, whatever normalisation adds. */
  lemma LoadKeepsBands(bands: seq<EQ.EqBand>, i: nat)
    requires i < |bands|
    ensures PeakingPoint(bands[i]) in Normalized(Loaded(bands))
  {
    var l := Loaded(bands);
    assert l[i] == PeakingPoint(bands[i]);
    UpdateKeepsPeaking(l, PeakingPoint(bands[i]));
    assert multiset(Normalized(l))[PeakingPoint(bands[i])] > 0;
  }

  /** With no saved bands the editor starts from the flat pair at 0 dB. */
  lemma LoadNothingIsFlat()
    ensures Normalized(Loaded([])) == FlatPair(0.0)
  {
    FlatPairNormalized(0.0);
  }

  /**
   * The curve editor of the main window: the points the user edits, the
   * visible frequency range and the dB limit of the vertical axis.
   */
  class PointEditor
  {
    var points: seq<Point>
    var minFreq: real
    var maxFreq: real
    var currentMaxDb: real

    /** The dB limit is one of the window's three, and every point has Q 0.1. */
    ghost predicate Valid()
      reads this
    {
      && (currentMaxDb == 40.0 || currentMaxDb == 50.0 || currentMaxDb == 100.0)
      && AllPointQ(points)
    }

    constructor()
      ensures Valid()
      ensures points == [] && minFreq == LowShelfFreq && maxFreq == HighShelfFreq && currentMaxDb == 40.0
    {
      points := [];
      minFreq := LowShelfFreq;
      maxFreq := HighShelfFreq;
      currentMaxDb := 40.0;
    }

    /** `UpdateEqStartEndPoints`: snap or add the two shelves, then sort. */
    method UpdateEqStartEndPoints()
      requires Valid()
      modifies this
      ensures Valid()
      ensures points == Normalized(old(points))
      ensures minFreq == old(minFreq) && maxFreq == old(maxFreq) && currentMaxDb == old(currentMaxDb)
    {
      UpdateKeepsQ(points);
      points := Normalized(points);
    }

    /** The points part of `LoadSettings`: the dB limit from the unlock flag, then one point per saved band. */
    method LoadPoints(bands: seq<EQ.EqBand>, unlockLimit: bool)
      requires Valid()
      modifies this
      ensures Valid()
      ensures currentMaxDb == (if unlockLimit then 100.0 else 50.0)
      ensures points == Normalized(Loaded(bands))
      ensures minFreq == old(minFreq) && maxFreq == old(maxFreq)
    {
      currentMaxDb := if unlockLimit then 100.0 else 50.0;
      var loaded: seq<Point>;
      if |bands| == 0 {
        loaded := FlatPair(0.0);
      } else {
        loaded := [];
        for i := 0 to |bands|
          invariant loaded == seq(i, k requires 0 <= k < i => PeakingPoint(bands[k]))
        {
          loaded := loaded + [PeakingPoint(bands[i])];
        }
      }
      points := loaded;
      UpdateEqStartEndPoints();
    }

    /** `FreqRange_Changed`: the clamped range, then the shelves are refreshed. */
    method FreqRangeChanged(parsedMin: Option<real>, parsedMax: Option<real>)
      requires Valid()
      modifies this
      ensures Valid()
      ensures (minFreq, maxFreq) == FreqRange(old(minFreq), old(maxFreq), parsedMin, parsedMax)
      ensures points == Normalized(old(points)) && currentMaxDb == old(currentMaxDb)
    {
      var range := FreqRange(minFreq, maxFreq, parsedMin, parsedMax);
      minFreq := range.0;
      maxFreq := range.1;
      UpdateEqStartEndPoints();
    }

    /** `AddPoint_Click`: refused in flat mode and at 16 points; otherwise a 0 dB Peaking point at the log centre of the range. */
    method AddPointClick(flatMode: bool, sqrt: real -> real)
      requires Valid()
      modifies this
      ensures Valid()
      ensures flatMode ==> points == old(points)
      ensures !flatMode ==> points == WithPoint(old(points), Point(sqrt(old(minFreq) * old(maxFreq)), 0.0, PointQ, EQ.Peaking))
      ensures minFreq == old(minFreq) && maxFreq == old(maxFreq) && currentMaxDb == old(currentMaxDb)
    {
      if flatMode || |points| >= MaxPoints {
        return;
      }
      var centre := sqrt(minFreq * maxFreq);
      points := points + [Point(centre, 0.0, PointQ, EQ.Peaking)];
      UpdateEqStartEndPoints();
    }

    /**
     * A left click on the canvas at `freq` and `gain`: in flat mode every
     * point takes the gain; otherwise a click on a point or outside the
     * padding adds nothing, and anywhere else adds a Peaking point below
     * the cap.
     */
    method CanvasLeftClick(flatMode: bool, onPoint: bool, inBounds: bool, freq: real, gain: real)
      requires Valid()
      modifies this
      ensures Valid()
      ensures flatMode ==> points == WithAllGains(old(points), gain)
      ensures !flatMode && (onPoint || !inBounds) ==> points == old(points)
      ensures !flatMode && !onPoint && inBounds ==> points == WithPoint(old(points), Point(freq, gain, PointQ, EQ.Peaking))
      ensures minFreq == old(minFreq) && maxFreq == old(maxFreq) && currentMaxDb == old(currentMaxDb)
    {
      if flatMode {
        points := WithAllGains(points, gain);
        return;
      }
      if onPoint || !inBounds {
        return;
      }
      if |points| < MaxPoints {
        points := points + [Point(freq, gain, PointQ, EQ.Peaking)];
        UpdateEqStartEndPoints();
      }
    }

    /** `EqCanvas_MouseMove` while point `dragging` is held. */
    method Drag(dragging: nat, freq: real, gain: real, flatMode: bool)
      requires Valid() && dragging < |points|
      modifies this
      ensures Valid()
      ensures points == Dragged(old(points), dragging, freq, gain, old(minFreq), old(maxFreq), flatMode)
      ensures minFreq == old(minFreq) && maxFreq == old(maxFreq) && currentMaxDb == old(currentMaxDb)
    {
      DragKeepsShelvesInPlace(points, dragging, freq, gain, minFreq, maxFreq, flatMode);
      points := Dragged(points, dragging, freq, gain, minFreq, maxFreq, flatMode);
    }

    /** `EqCanvas_MouseWheel`: the point under the cursor gets Q 0.1, then the shelves are refreshed. */
    method Wheel(hit: Option<nat>)
      requires Valid() && (hit.Some? ==> hit.value < |points|)
      modifies this
      ensures Valid()
      ensures hit.None? ==> points == old(points)
      ensures hit.Some? ==> points == Normalized(old(points))
      ensures minFreq == old(minFreq) && maxFreq == old(maxFreq) && currentMaxDb == old(currentMaxDb)
    {
      if hit.Some? {
        var i := hit.value;
        assert points[i := points[i].(q := PointQ)] == points;
        points := points[i := points[i].(q := PointQ)];
        UpdateEqStartEndPoints();
      }
    }

    /** `EqCanvas_MouseRightButtonDown`: a Peaking point under the cursor is removed, then the shelves are refreshed. */
    method RightClick(hit: Option<nat>)
      requires Valid() && (hit.Some? ==> hit.value < |points|)
      modifies this
      ensures Valid()
      ensures points == WithoutPoint(old(points), hit)
      ensures minFreq == old(minFreq) && maxFreq == old(maxFreq) && currentMaxDb == old(currentMaxDb)
    {
      if hit.Some? && points[hit.value].kind == EQ.Peaking {
        var i := hit.value;
        points := points[..i] + points[i + 1..];
        UpdateEqStartEndPoints();
      }
    }

    /** `FlatMode_Changed`: entering flat mode keeps only the two shelves, at the gain found near 20 Hz. */
    method FlatModeChanged(isFlat: bool)
      requires Valid()
      modifies this
      ensures Valid()
      ensures isFlat ==> points == FlatPair(LowGain(old(points)))
      ensures !isFlat ==> points == Normalized(old(points))
      ensures minFreq == old(minFreq) && maxFreq == old(maxFreq) && currentMaxDb == old(currentMaxDb)
    {
      if isFlat {
        var g := LowGain(points);
        FlatPairNormalized(g);
        points := FlatPair(g);
      }
      UpdateEqStartEndPoints();
    }

    /** `UnlockLimit_Changed`: the dB limit becomes 100 or 50, then the shelves are refreshed. */
    method UnlockLimitChanged(unlocked: bool)
      requires Valid()
      modifies this
      ensures Valid()
      ensures currentMaxDb == (if unlocked then 100.0 else 50.0)
      ensures points == Normalized(old(points))
      ensures minFreq == old(minFreq) && maxFreq == old(maxFreq)
    {
      currentMaxDb := if unlocked then 100.0 else 50.0;
      UpdateEqStartEndPoints();
    }

    /** `UpdateAudioEq`: the master gain and band list the engine receives. */
    method UpdateAudioEq(boostEnabled: bool, flatMode: bool) returns (masterDb: real, bands: seq<EQ.EqBand>)
      ensures (masterDb, bands) == EngineEq(points, boostEnabled, flatMode)
    {
      if !boostEnabled {
        return 0.0, [];
      }
      var sorted := SortByFreq(points);
      masterDb := if flatMode && |sorted| > 0 then sorted[0].gain else 0.0;
      bands := [];
      for i := 0 to |sorted|
        invariant bands == seq(i, k requires 0 <= k < i => BandOf(sorted[k], masterDb))
      {
        var p := sorted[i];
        bands := bands + [EQ.EqBand(p.freq, p.gain - masterDb, p.q, p.kind)];
      }
    }
  }

  /** Every band the editor sends has Q 0.1. */
  lemma EngineBandsQ(points: seq<Point>, boostEnabled: bool, flatMode: bool)
    requires AllPointQ(points)
    ensures forall b :: b in EngineEq(points, boostEnabled, flatMode).1 ==> b.q == PointQ
  {
    if boostEnabled {
      var sorted := SortByFreq(points);
      forall i | 0 <= i < |sorted|
        ensures sorted[i].q == PointQ
      {
        assert sorted[i] in multiset(points);
      }
    }
  }
}
