/** Historical reads: Source.Read of the local source, one database query at a time,
    and of the in-memory source it must agree with
    (internal/eventstream/source/local.go and memory.go). */
module HistoricalReads {
  import opened Stream

  datatype Loaded =
    | Unrecognized
    | OutOfRange
    | Loaded(seg: Segment, exhausted: bool)

  /** The rows that the segment query returns after the stream's next offset: the
      first `size` events of the wanted types at or after `begin`. */
  function Rows(log: Log, types: Types, begin: nat, size: nat): seq<Envelope> {
    var matching := Slice(log.events, types, begin, log.end);
    if |matching| <= size then matching else matching[..size]
  }

  /** Local.loadSegment. */
  method LoadSegment(stream: Option<Log>, id: Uuid, types: Types, size: nat, begin: nat) returns (r: Loaded)
    requires 0 < size && (stream.Some? ==> ValidLog(stream.value))
    ensures r.Unrecognized? <==> stream.None?
    ensures r.OutOfRange? <==> stream.Some? && begin > stream.value.end
    ensures r.Loaded? ==>
      && r.seg.streamId == id && r.seg.begin == begin
      && Faithful(r.seg, stream.value, types)
      && |r.seg.envelopes| <= size && (r.exhausted <==> |r.seg.envelopes| < size)
      && (r.exhausted ==> r.seg.end == stream.value.end)
      && (!r.exhausted ==> begin < r.seg.end == r.seg.envelopes[size - 1].offset + 1)
  {
    if stream.None? {
      return Unrecognized;
    }
    var log := stream.value;
    if begin > log.end {
      return OutOfRange;
    }
    var rows := Rows(log, types, begin, size);
    var envelopes, end := [], begin;
    for i := 0 to |rows|
      invariant envelopes == rows[..i]
      invariant end == if i == 0 then begin else rows[i - 1].offset + 1
    {
      envelopes := envelopes + [rows[i]];
      end := rows[i].offset + 1;
    }
    var exhausted := |envelopes| < size;
    if exhausted && end < log.end {
      end := log.end;
    }
    RowsEnd(log, types, begin, size);
    assert rows[..|rows|] == rows;
    r := Loaded(Segment(id, begin, end, envelopes), exhausted);
  }

  /** The rows are the events up to and including the last of them; if there are fewer
      than the limit, up to the end of the stream. */
  lemma {:induction false} RowsEnd(log: Log, types: Types, begin: nat, size: nat)
    requires ValidLog(log) && begin <= log.end && 0 < size
    ensures var rows := Rows(log, types, begin, size);
      && (rows != [] ==>
            && begin < rows[|rows| - 1].offset + 1 <= log.end
            && rows == Slice(log.events, types, begin, rows[|rows| - 1].offset + 1))
      && (|rows| < size ==> rows == Slice(log.events, types, begin, log.end))
  {
    var rows := Rows(log, types, begin, size);
    if rows != [] {
      SliceDrop(log.events, types, begin, log.end, |rows|);
    }
  }

  // ---- Streams that grow while they are read -----------------------------------------

  /** What each query of a read finds: the k-th one sees views(k). */
  type Views = nat -> Option<Log>

  /** A stream does not disappear, and only grows. */
  ghost predicate Growing(views: Views) {
    && (forall k :: views(k).Some? ==> ValidLog(views(k).value))
    && (forall j, k :: j <= k && views(j).Some? ==> views(k).Some? && Extends(views(j).value, views(k).value))
  }

  /** A stream at rest. */
  function AtRest(stream: Option<Log>): Views {
    k => stream
  }

  /** How a call to Read ends. */
  datatype Outcome = AtEnd | Rejected | NoStream | BeyondEnd

  /** What a call to Read has delivered: contiguous, advancing segments from `begin` to
      `end`, of at most `size` events each (0 means no limit), faithful to the log. */
  ghost predicate Delivers(delivered: seq<Segment>, log: Log, types: Types, size: nat, begin: nat, end: nat) {
    && Chained(delivered, begin, end)
    && (forall k :: 0 <= k < |delivered| ==> Advances(delivered[k], log, types, size))
    && (delivered == [] || end <= log.end)
  }

  ghost predicate Advances(seg: Segment, log: Log, types: Types, size: nat) {
    Faithful(seg, log, types) && seg.begin < seg.end && (size == 0 || |seg.envelopes| <= size)
  }

  /** What has been delivered stays what it was as the stream grows. */
  lemma {:induction false} DeliversGrow(delivered: seq<Segment>, log: Log, grown: Log, types: Types, size: nat,
                                        begin: nat, end: nat)
    requires Delivers(delivered, log, types, size, begin, end) && Extends(log, grown)
    ensures Delivers(delivered, grown, types, size, begin, end)
  {
    forall k | 0 <= k < |delivered| ensures Advances(delivered[k], grown, types, size) {
      assert Advances(delivered[k], log, types, size);
      SliceExtends(log, grown, types, delivered[k].begin, delivered[k].end);
    }
  }

  lemma {:induction false} DeliversNext(delivered: seq<Segment>, seg: Segment, log: Log, types: Types, size: nat,
                                        begin: nat)
    requires Delivers(delivered, log, types, size, begin, seg.begin) && Advances(seg, log, types, size)
    ensures Delivers(delivered + [seg], log, types, size, begin, seg.end)
  {
    forall k | 0 <= k < |delivered + [seg]| ensures Advances((delivered + [seg])[k], log, types, size) {
      assert k < |delivered| ==> Advances(delivered[k], log, types, size);
    }
    ChainedAppend(delivered, seg, begin);
  }

  /** Segments that advance are no more than the offsets they cover. */
  lemma {:induction false} DeliversCount(delivered: seq<Segment>, log: Log, types: Types, size: nat, begin: nat,
                                         end: nat)
    requires Delivers(delivered, log, types, size, begin, end)
    ensures begin + |delivered| <= end
    decreases |delivered|
  {
    if delivered != [] {
      var init, last := delivered[..|delivered| - 1], delivered[|delivered| - 1];
      assert Advances(last, log, types, size);
      forall k | 0 <= k < |init| ensures Advances(init[k], log, types, size) {
        assert init[k] == delivered[k];
      }
      DeliversCount(init, log, types, size, begin, last.begin);
    }
  }

  /** The events of such segments are one slice of the log. */
  lemma {:induction false} DeliversSlice(delivered: seq<Segment>, log: Log, types: Types, size: nat, begin: nat,
                                         end: nat)
    requires ValidLog(log) && Delivers(delivered, log, types, size, begin, end)
    ensures Concat(delivered) == Slice(log.events, types, begin, end)
  {
    forall k | 0 <= k < |delivered| ensures Faithful(delivered[k], log, types) {
      assert Advances(delivered[k], log, types, size);
    }
    ChainIsSlice(delivered, log, types, begin, end);
  }

  /** The contract of Source.Read, with an fn that fails after accepting `accepts`
      segments. `last` is the number of the last query; the stream as that query saw it
      holds everything that was delivered, and a read that ends of its own accord has
      reached the end of it. Whether there is such a stream, and whether it reaches
      `begin`, is for the first query to say. */
  ghost predicate ReadContract(views: Views, types: Types, size: nat, begin: nat, accepts: nat,
                               delivered: seq<Segment>, end: nat, outcome: Outcome, last: nat)
  {
    match outcome
    case NoStream => views(0).None? && delivered == []
    case BeyondEnd => views(0).Some? && views(0).value.end < begin && delivered == []
    case _ =>
      && views(0).Some? && begin <= views(0).value.end
      && |delivered| <= last + 1 && views(last).Some?
      && Delivers(delivered, views(last).value, types, size, begin, end)
      && Concat(delivered) == Slice(views(last).value.events, types, begin, end)
      && (outcome.AtEnd? ==> end == views(last).value.end)
      && (outcome.Rejected? ==> |delivered| == accepts && end < views(last).value.end)
  }

  /** Before query number |delivered| of a read: everything so far is as the query before
      it saw it. */
  ghost predicate Underway(views: Views, types: Types, size: nat, begin: nat, delivered: seq<Segment>, end: nat) {
    if delivered == [] then end == begin
    else
      && views(0).Some? && begin <= views(0).value.end
      && views(|delivered| - 1).Some?
      && Delivers(delivered, views(|delivered| - 1).value, types, size, begin, end)
  }

  /** The next query of a read sees a stream that holds everything delivered so far. */
  lemma {:induction false} Continues(views: Views, types: Types, size: nat, begin: nat, delivered: seq<Segment>,
                                     end: nat)
    requires Growing(views) && Underway(views, types, size, begin, delivered, end)
    ensures var n := |delivered|;
      && (views(n).None? ==> n == 0)
      && (views(n).Some? && views(n).value.end < end ==> n == 0)
      && (views(n).Some? && end <= views(n).value.end ==>
            && views(0).Some? && begin <= views(0).value.end
            && Delivers(delivered, views(n).value, types, size, begin, end))
  {
    var n := |delivered|;
    if n > 0 {
      assert Extends(views(n - 1).value, views(n).value);
      DeliversGrow(delivered, views(n - 1).value, views(n).value, types, size, begin, end);
    }
  }

  lemma {:induction false} ReadEnds(views: Views, types: Types, size: nat, begin: nat, accepts: nat,
                                    delivered: seq<Segment>, end: nat, outcome: Outcome, last: nat)
    requires views(0).Some? && begin <= views(0).value.end && |delivered| <= last + 1
    requires views(last).Some? && ValidLog(views(last).value)
    requires Delivers(delivered, views(last).value, types, size, begin, end)
    requires outcome.AtEnd? || outcome.Rejected?
    requires if outcome.AtEnd? then end == views(last).value.end
      else |delivered| == accepts && end < views(last).value.end
    ensures ReadContract(views, types, size, begin, accepts, delivered, end, outcome, last)
  {
    DeliversSlice(delivered, views(last).value, types, size, begin, end);
  }

  /** Local.Read. */
  method LocalRead(views: Views, id: Uuid, types: Types, size: nat, begin: nat, accepts: nat)
    returns (delivered: seq<Segment>, end: nat, outcome: Outcome, last: nat)
    requires 0 < size && Growing(views)
    ensures ReadContract(views, types, size, begin, accepts, delivered, end, outcome, last)
    ensures forall k :: 0 <= k < |delivered| ==> delivered[k].streamId == id
  {
    delivered, end := [], begin;
    while true
      // "true ==" keeps the verifier from taking the predicate apart at every turn.
      invariant |delivered| <= accepts && true == Underway(views, types, size, begin, delivered, end)
      invariant forall k :: 0 <= k < |delivered| ==> delivered[k].streamId == id
      decreases accepts - |delivered|
    {
      last := |delivered|;
      Continues(views, types, size, begin, delivered, end);
      var loaded := LoadSegment(views(|delivered|), id, types, size, end);
      if loaded.Unrecognized? {
        return delivered, end, NoStream, last;
      }
      if loaded.OutOfRange? {
        return delivered, end, BeyondEnd, last;
      }
      if loaded.seg.end > loaded.seg.begin {
        if |delivered| == accepts {
          outcome := Rejected;
          break;
        }
        DeliversNext(delivered, loaded.seg, views(last).value, types, size, begin);
        delivered := delivered + [loaded.seg];
        end := loaded.seg.end;
      }
      if loaded.exhausted {
        outcome := AtEnd;
        break;
      }
    }
    ReadEnds(views, types, size, begin, accepts, delivered, end, outcome, last);
  }

  // ---- Memory --------------------------------------------------------------------

  /** Memory.segment. */
  method MemorySegment(log: Log, id: Uuid, types: Types, begin: nat, end: nat) returns (seg: Segment)
    ensures seg == Segment(id, begin, end, Slice(log.events, types, begin, end))
  {
    var envelopes := [];
    for i := 0 to |log.events|
      invariant envelopes == Slice(log.events[..i], types, begin, end)
    {
      var e := log.events[i];
      assert log.events[..i + 1][..i] == log.events[..i];
      if e.offset < begin || e.offset >= end || !Wants(types, e.typeId) {
        continue;
      }
      envelopes := envelopes + [e];
    }
    assert log.events[..|log.events|] == log.events;
    seg := Segment(id, begin, end, envelopes);
  }

  datatype Unread = Missing | TooFar | Finished | Next(seg: Segment)

  /** Memory.unread. */
  method MemoryUnread(stream: Option<Log>, id: Uuid, types: Types, size: nat, begin: nat) returns (r: Unread)
    requires stream.Some? ==> ValidLog(stream.value)
    ensures r.Missing? <==> stream.None?
    ensures r.TooFar? <==> stream.Some? && begin > stream.value.end
    ensures r.Finished? <==> stream.Some? && begin == stream.value.end
    ensures r.Next? ==>
      && r.seg.streamId == id && r.seg.begin == begin && Advances(r.seg, stream.value, types, size)
      && (r.seg.end == stream.value.end ||
          (|r.seg.envelopes| == size > 0 && r.seg.end == r.seg.envelopes[size - 1].offset + 1))
  {
    if stream.None? {
      return Missing;
    }
    var log := stream.value;
    if begin > log.end {
      return TooFar;
    }
    if begin == log.end {
      return Finished;
    }
    var all := MemorySegment(log, id, types, begin, log.end);
    if 0 < size < |all.envelopes| {
      SliceDrop(log.events, types, begin, log.end, size);
      all := all.(envelopes := all.envelopes[..size], end := all.envelopes[size - 1].offset + 1);
    }
    r := Next(all);
  }

  /** Memory.Read. */
  method MemoryRead(views: Views, id: Uuid, types: Types, size: nat, begin: nat, accepts: nat)
    returns (delivered: seq<Segment>, end: nat, outcome: Outcome, last: nat)
    requires Growing(views)
    ensures ReadContract(views, types, size, begin, accepts, delivered, end, outcome, last)
    ensures forall k :: 0 <= k < |delivered| ==> delivered[k].streamId == id
  {
    delivered, end := [], begin;
    while true
      // "true ==" keeps the verifier from taking the predicate apart at every turn.
      invariant |delivered| <= accepts && true == Underway(views, types, size, begin, delivered, end)
      invariant forall k :: 0 <= k < |delivered| ==> delivered[k].streamId == id
      decreases accepts - |delivered|
    {
      last := |delivered|;
      Continues(views, types, size, begin, delivered, end);
      var unread := MemoryUnread(views(|delivered|), id, types, size, end);
      if unread.Missing? {
        return delivered, end, NoStream, last;
      }
      if unread.TooFar? {
        return delivered, end, BeyondEnd, last;
      }
      if unread.Finished? {
        outcome := AtEnd;
        break;
      }
      if |delivered| == accepts {
        outcome := Rejected;
        break;
      }
      DeliversNext(delivered, unread.seg, views(last).value, types, size, begin);
      delivered := delivered + [unread.seg];
      end := unread.seg.end;
    }
    ReadEnds(views, types, size, begin, accepts, delivered, end, outcome, last);
  }

  // ---- What the contract means ----------------------------------------------------------

  /** A read of a stream that stops growing comes to its end, whatever fn is willing to
      accept beyond one segment for each offset. */
  lemma {:induction false} ReadFinishes(views: Views, types: Types, size: nat, begin: nat, accepts: nat,
                                        delivered: seq<Segment>, end: nat, outcome: Outcome, last: nat, limit: nat)
    requires ReadContract(views, types, size, begin, accepts, delivered, end, outcome, last)
    requires (forall k :: views(k).Some? ==> views(k).value.end <= limit) && limit <= begin + accepts
    ensures !outcome.Rejected?
  {
    if outcome.Rejected? {
      DeliversCount(delivered, views(last).value, types, size, begin, end);
    }
  }

  /** Of two reads of the same stream that come to its end, however each is divided into
      segments and however the stream grows meanwhile, the one that sees more of it
      delivers what the other does, and then exactly what was appended. */
  lemma {:induction false} LaterReadExtends(
    types: Types, begin: nat,
    views1: Views, size1: nat, accepts1: nat, delivered1: seq<Segment>, end1: nat, last1: nat,
    views2: Views, size2: nat, accepts2: nat, delivered2: seq<Segment>, end2: nat, last2: nat)
    requires ReadContract(views1, types, size1, begin, accepts1, delivered1, end1, AtEnd, last1)
    requires ReadContract(views2, types, size2, begin, accepts2, delivered2, end2, AtEnd, last2)
    requires ValidLog(views2(last2).value) && Extends(views1(last1).value, views2(last2).value)
    ensures Concat(delivered2) == Concat(delivered1) + Slice(views2(last2).value.events, types, end1, end2)
  {
    var log1, log2 := views1(last1).value, views2(last2).value;
    DeliversCount(delivered1, log1, types, size1, begin, end1);
    SliceExtends(log1, log2, types, begin, end1);
    SliceSplit(log2.events, types, begin, end1, end2);
  }

  /** Over a stream at rest the two sources end the same way and deliver the same events,
      if fn accepts everything. */
  lemma {:induction false} SourcesAgree(
    stream: Option<Log>, types: Types, begin: nat,
    size1: nat, accepts1: nat, delivered1: seq<Segment>, end1: nat, outcome1: Outcome, last1: nat,
    size2: nat, accepts2: nat, delivered2: seq<Segment>, end2: nat, outcome2: Outcome, last2: nat)
    requires ReadContract(AtRest(stream), types, size1, begin, accepts1, delivered1, end1, outcome1, last1)
    requires ReadContract(AtRest(stream), types, size2, begin, accepts2, delivered2, end2, outcome2, last2)
    requires !outcome1.Rejected? && !outcome2.Rejected?
    ensures outcome1 == outcome2 && Concat(delivered1) == Concat(delivered2)
  {
  }
}
