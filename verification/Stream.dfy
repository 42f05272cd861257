/** Event streams as values: envelopes, logs, segments, and the reference
    meaning of every read -- `Slice`, "the log's events of the wanted types in
    [a, b), in offset order". */
module Stream {

  type Uuid = nat

  datatype Option<+T> = None | Some(value: T)

  /** A set of message types; the source's nil set is `Every`. */
  datatype Types = Every | Only(ids: set<Uuid>)

  predicate Wants(types: Types, id: Uuid) {
    types.Every? || id in types.ids
  }

  /** Every type in `sub` is also in `super`. */
  ghost predicate SubTypes(sub: Types, super: Types) {
    forall id: Uuid :: Wants(sub, id) ==> Wants(super, id)
  }

  /** `size` is the encoded size in bytes; `valid` is whether it passes validation. */
  datatype Header = Header(content: nat, size: nat, valid: bool)

  /** An event with its EventStreamPosition extension (streamId, offset).
      The body is everything but the header. */
  datatype Envelope = Envelope(
    streamId: Uuid,
    offset: nat,
    typeId: Uuid,
    header: Header,
    payload: nat,
    bodySize: nat,
    bodyValid: bool)

  /** A contiguous piece [begin, end) of one stream. */
  datatype Segment = Segment(streamId: Uuid, begin: nat, end: nat, envelopes: seq<Envelope>)

  /** A stream: its events in offset order, and the offset at which it ends. */
  datatype Log = Log(events: seq<Envelope>, end: nat)

  ghost predicate Sorted(events: seq<Envelope>) {
    forall i, j :: 0 <= i < j < |events| ==> events[i].offset < events[j].offset
  }

  ghost predicate Within(events: seq<Envelope>, a: nat, b: nat) {
    forall i :: 0 <= i < |events| ==> a <= events[i].offset < b
  }

  ghost predicate ValidLog(log: Log) {
    Sorted(log.events) && Within(log.events, 0, log.end)
  }

  /** Streams only grow: the old events stay, and new ones lie at or after the old end. */
  ghost predicate Extends(log: Log, grown: Log) {
    && log.end <= grown.end
    && log.events <= grown.events
    && (forall i :: |log.events| <= i < |grown.events| ==> log.end <= grown.events[i].offset)
  }

  // ---- Slice ---------------------------------------------------------------

  predicate Matches(e: Envelope, types: Types, a: nat, b: nat) {
    a <= e.offset < b && Wants(types, e.typeId)
  }

  function Slice(events: seq<Envelope>, types: Types, a: nat, b: nat): (r: seq<Envelope>)
  {
    if events == [] then []
    else
      var init, last := events[..|events| - 1], events[|events| - 1];
      if Matches(last, types, a, b) then Slice(init, types, a, b) + [last] else Slice(init, types, a, b)
  }

  lemma {:induction false} SliceMembers(events: seq<Envelope>, types: Types, a: nat, b: nat)
    ensures forall e :: e in Slice(events, types, a, b) <==>
      e in events && a <= e.offset < b && (types.Every? || e.typeId in types.ids)
  {
    if events != [] {
      SliceMembers(events[..|events| - 1], types, a, b);
      assert events == events[..|events| - 1] + [events[|events| - 1]];
    }
  }

  lemma {:induction false} SliceConcat(xs: seq<Envelope>, ys: seq<Envelope>, types: Types, a: nat, b: nat)
    ensures Slice(xs + ys, types, a, b) == Slice(xs, types, a, b) + Slice(ys, types, a, b)
  {
    if ys == [] {
      assert xs + ys == xs;
    } else {
      SliceConcat(xs, ys[..|ys| - 1], types, a, b);
      assert (xs + ys)[..|xs + ys| - 1] == xs + ys[..|ys| - 1];
    }
  }

  lemma {:induction false} SliceNone(events: seq<Envelope>, types: Types, a: nat, b: nat)
    requires forall i :: 0 <= i < |events| ==> !Matches(events[i], types, a, b)
    ensures Slice(events, types, a, b) == []
  {
    if events != [] {
      SliceNone(events[..|events| - 1], types, a, b);
    }
  }

  lemma {:induction false} SliceAll(events: seq<Envelope>, types: Types, a: nat, b: nat)
    requires forall i :: 0 <= i < |events| ==> Matches(events[i], types, a, b)
    ensures Slice(events, types, a, b) == events
  {
    if events != [] {
      SliceAll(events[..|events| - 1], types, a, b);
      assert events == events[..|events| - 1] + [events[|events| - 1]];
    }
  }

  lemma {:induction false} SliceSorted(events: seq<Envelope>, types: Types, a: nat, b: nat)
    requires Sorted(events)
    ensures Sorted(Slice(events, types, a, b))
    ensures Within(Slice(events, types, a, b), a, b)
    ensures forall i :: 0 <= i < |Slice(events, types, a, b)| ==> Wants(types, Slice(events, types, a, b)[i].typeId)
  {
    var r := Slice(events, types, a, b);
    if events != [] {
      var init := events[..|events| - 1];
      SliceSorted(init, types, a, b);
      SliceMembers(init, types, a, b);
      var s := Slice(init, types, a, b);
      forall i | 0 <= i < |s| ensures s[i].offset < events[|events| - 1].offset {
        assert s[i] in s;
        assert s[i] in init;
      }
    }
  }

  /** Reading [a, b) and then [b, c) is reading [a, c). */
  lemma {:induction false} SliceSplit(events: seq<Envelope>, types: Types, a: nat, b: nat, c: nat)
    requires Sorted(events)
    requires a <= b <= c
    ensures Slice(events, types, a, c) == Slice(events, types, a, b) + Slice(events, types, b, c)
  {
    if events != [] {
      var init := events[..|events| - 1];
      SliceSplit(init, types, a, b, c);
      if events[|events| - 1].offset < b {
        SliceNone(init, types, b, c);
        SliceNone(events, types, b, c);
      }
    }
  }

  /** Nothing matches in [b, c), so reading on to c adds nothing. */
  lemma {:induction false} SliceSkip(events: seq<Envelope>, types: Types, a: nat, b: nat, c: nat)
    requires Sorted(events)
    requires a <= b <= c
    requires Slice(events, types, b, c) == []
    ensures Slice(events, types, a, c) == Slice(events, types, a, b)
  {
    SliceSplit(events, types, a, b, c);
  }

  /** What was read below the end of a stream never changes as the stream grows. */
  lemma {:induction false} SliceExtends(log: Log, grown: Log, types: Types, a: nat, b: nat)
    requires Extends(log, grown)
    requires b <= log.end || b <= a
    ensures Slice(grown.events, types, a, b) == Slice(log.events, types, a, b)
  {
    var more := grown.events[|log.events|..];
    assert grown.events == log.events + more;
    SliceConcat(log.events, more, types, a, b);
    SliceNone(more, types, a, b);
  }

  /** Filtering a read of more types, over a wider range, is reading directly. */
  lemma {:induction false} SliceSlice(events: seq<Envelope>, wide: Types, a: nat, b: nat, narrow: Types, c: nat, d: nat)
    requires SubTypes(narrow, wide)
    requires a <= c && d <= b
    ensures Slice(Slice(events, wide, a, b), narrow, c, d) == Slice(events, narrow, c, d)
  {
    if events != [] {
      var init, last := events[..|events| - 1], events[|events| - 1];
      SliceSlice(init, wide, a, b, narrow, c, d);
      if Matches(last, wide, a, b) {
        assert Slice(events, wide, a, b) == Slice(init, wide, a, b) + [last];
        SliceConcat(Slice(init, wide, a, b), [last], narrow, c, d);
        assert [last][..0] == [];
        assert Slice([last], narrow, c, d) == if Matches(last, narrow, c, d) then [last] else [];
      } else {
        assert Slice(events, wide, a, b) == Slice(init, wide, a, b);
      }
    }
  }

  /** Only the first k events match. */
  lemma {:induction false} SliceHead(s: seq<Envelope>, types: Types, a: nat, b: nat, k: nat)
    requires k <= |s|
    requires forall i :: 0 <= i < |s| ==> (Matches(s[i], types, a, b) <==> i < k)
    ensures Slice(s, types, a, b) == s[..k]
  {
    if k == |s| {
      SliceAll(s, types, a, b);
      assert s[..k] == s;
    } else {
      var init := s[..|s| - 1];
      SliceHead(init, types, a, b, k);
      assert init[..k] == s[..k];
    }
  }

  /** Only the events from the k-th on match. */
  lemma {:induction false} SliceTail(s: seq<Envelope>, types: Types, a: nat, b: nat, k: nat)
    requires k <= |s|
    requires forall i :: 0 <= i < |s| ==> (Matches(s[i], types, a, b) <==> k <= i)
    ensures Slice(s, types, a, b) == s[k..]
  {
    if k == |s| {
      SliceNone(s, types, a, b);
    } else {
      var init := s[..|s| - 1];
      SliceTail(init, types, a, b, k);
      assert s[k..] == init[k..] + [s[|s| - 1]];
    }
  }

  /** Dropping the first k events of a slice is starting just after the k-th. */
  lemma {:induction false} SliceDrop(events: seq<Envelope>, types: Types, a: nat, b: nat, k: nat)
    requires Sorted(events)
    requires 0 < k <= |Slice(events, types, a, b)|
    ensures a < Slice(events, types, a, b)[k - 1].offset + 1 <= b
    ensures Slice(events, types, a, Slice(events, types, a, b)[k - 1].offset + 1) == Slice(events, types, a, b)[..k]
    ensures Slice(events, types, Slice(events, types, a, b)[k - 1].offset + 1, b) == Slice(events, types, a, b)[k..]
  {
    var s := Slice(events, types, a, b);
    SliceSorted(events, types, a, b);
    var m := s[k - 1].offset + 1;
    SliceHead(s, types, a, m, k);
    SliceTail(s, types, m, b, k);
    SliceSlice(events, types, a, b, types, a, m);
    SliceSlice(events, types, a, b, types, m, b);
  }

  // ---- Chains of segments --------------------------------------------------

  /** The segment holds exactly the log's events of these types in its range. */
  ghost predicate Faithful(seg: Segment, log: Log, types: Types) {
    && seg.begin <= seg.end <= log.end
    && seg.envelopes == Slice(log.events, types, seg.begin, seg.end)
  }

  /** The segments are contiguous and run from a to b. */
  ghost predicate Chained(segs: seq<Segment>, a: nat, b: nat) {
    if segs == [] then a == b
    else
      var last := segs[|segs| - 1];
      last.begin <= last.end == b && Chained(segs[..|segs| - 1], a, last.begin)
  }

  /** The events of the segments, in order. */
  ghost function Concat(segs: seq<Segment>): seq<Envelope> {
    if segs == [] then [] else Concat(segs[..|segs| - 1]) + segs[|segs| - 1].envelopes
  }

  lemma {:induction false} ChainedAppend(segs: seq<Segment>, seg: Segment, a: nat)
    requires Chained(segs, a, seg.begin) && seg.begin <= seg.end
    ensures Chained(segs + [seg], a, seg.end)
    ensures Concat(segs + [seg]) == Concat(segs) + seg.envelopes
  {
  }

  lemma {:induction false} ChainedJoin(xs: seq<Segment>, ys: seq<Segment>, a: nat, b: nat, c: nat)
    requires Chained(xs, a, b) && Chained(ys, b, c)
    ensures Chained(xs + ys, a, c)
    decreases |ys|
  {
    if ys == [] {
      assert xs + ys == xs;
    } else {
      ChainedJoin(xs, ys[..|ys| - 1], a, b, ys[|ys| - 1].begin);
      assert (xs + ys)[..|xs + ys| - 1] == xs + ys[..|ys| - 1];
    }
  }

  lemma {:induction false} ConcatJoin(xs: seq<Segment>, ys: seq<Segment>)
    ensures Concat(xs + ys) == Concat(xs) + Concat(ys)
    decreases |ys|
  {
    if ys == [] {
      assert xs + ys == xs;
    } else {
      var init, last := ys[..|ys| - 1], ys[|ys| - 1];
      ConcatJoin(xs, init);
      assert (xs + ys)[..|xs + ys| - 1] == xs + init;
      Associates(Concat(xs), Concat(init), last.envelopes);
    }
  }

  lemma {:induction false} Associates(a: seq<Envelope>, b: seq<Envelope>, c: seq<Envelope>)
    ensures (a + b) + c == a + (b + c)
  {
  }

  lemma {:induction false} ChainedOrdered(segs: seq<Segment>, a: nat, b: nat)
    requires Chained(segs, a, b)
    ensures a <= b
    ensures forall i :: 0 <= i < |segs| ==> a <= segs[i].begin <= segs[i].end <= b
  {
    if segs != [] {
      ChainedOrdered(segs[..|segs| - 1], a, segs[|segs| - 1].begin);
    }
  }

  lemma {:induction false} ChainedAt(segs: seq<Segment>, a: nat, b: nat, i: nat)
    requires Chained(segs, a, b) && i < |segs|
    ensures Chained(segs[..i], a, segs[i].begin)
    ensures segs[i].begin <= segs[i].end == if i + 1 < |segs| then segs[i + 1].begin else b
    ensures Concat(segs[..i + 1]) == Concat(segs[..i]) + segs[i].envelopes
  {
    var init, last := segs[..|segs| - 1], segs[|segs| - 1];
    assert segs[..i + 1][..i] == segs[..i];
    if i < |init| {
      ChainedAt(init, a, last.begin, i);
      assert init[..i] == segs[..i];
    }
  }

  /** A prefix of a chain ends where the next segment begins. */
  lemma {:induction false} ChainedPrefixEnd(segs: seq<Segment>, a: nat, b: nat, n: nat, end: nat)
    requires Chained(segs, a, b) && n <= |segs| && Chained(segs[..n], a, end)
    ensures end == if n < |segs| then segs[n].begin else b
  {
    if n == |segs| {
      assert segs[..n] == segs;
    } else {
      ChainedAt(segs, a, b, n);
    }
    ChainedEndUnique(segs[..n], a, end, if n < |segs| then segs[n].begin else b);
  }

  lemma {:induction false} ChainedEndUnique(segs: seq<Segment>, a: nat, b: nat, c: nat)
    requires Chained(segs, a, b) && Chained(segs, a, c)
    ensures b == c
  {
  }

  /** A contiguous chain of faithful segments delivers exactly one slice of the
      log: nothing lost, repeated or reordered. */
  lemma {:induction false} ChainIsSlice(segs: seq<Segment>, log: Log, types: Types, a: nat, b: nat)
    requires ValidLog(log)
    requires Chained(segs, a, b)
    requires forall i :: 0 <= i < |segs| ==> Faithful(segs[i], log, types)
    ensures Concat(segs) == Slice(log.events, types, a, b)
  {
    if segs == [] {
      SliceNone(log.events, types, a, b);
    } else {
      var last := segs[|segs| - 1];
      ChainIsSlice(segs[..|segs| - 1], log, types, a, last.begin);
      ChainedOrdered(segs[..|segs| - 1], a, last.begin);
      SliceSplit(log.events, types, a, last.begin, b);
    }
  }

  // ---- Walking through a segment ---------------------------------------------

  /** Where a consumer of the segment stands before envelope i. */
  ghost function PositionAt(seg: Segment, i: nat): nat
    requires i <= |seg.envelopes|
  {
    if i == 0 then seg.begin else seg.envelopes[i - 1].offset + 1
  }

  /** The events of a segment from envelope i on are those from the checkpoint there. */
  lemma {:induction false} SegmentFrom(log: Log, types: Types, seg: Segment, i: nat)
    requires ValidLog(log) && Faithful(seg, log, types) && i <= |seg.envelopes|
    ensures seg.begin <= PositionAt(seg, i) <= seg.end
    ensures Slice(log.events, types, PositionAt(seg, i), seg.end) == seg.envelopes[i..]
  {
    if i > 0 {
      SliceDrop(log.events, types, seg.begin, seg.end, i);
    }
  }

  lemma {:induction false} SegmentAt(log: Log, types: Types, seg: Segment, i: nat)
    requires ValidLog(log) && Faithful(seg, log, types) && i <= |seg.envelopes|
    ensures seg.begin <= PositionAt(seg, i) <= seg.end
    ensures i < |seg.envelopes| ==>
      && PositionAt(seg, i) <= seg.envelopes[i].offset < seg.end
      && Slice(log.events, types, PositionAt(seg, i), seg.envelopes[i].offset + 1) == [seg.envelopes[i]]
    ensures i == |seg.envelopes| ==> Slice(log.events, types, PositionAt(seg, i), seg.end) == []
  {
    SegmentFrom(log, types, seg, i);
    if i < |seg.envelopes| {
      SliceDrop(log.events, types, PositionAt(seg, i), seg.end, 1);
      SliceSorted(log.events, types, PositionAt(seg, i), seg.end);
    }
  }
}
