/** Segments on the wire: the server's split and the client's parse
    (internal/eventstream/source/server.go and remote.go). */
module Wire {
  import opened Stream

  // ---- Messages --------------------------------------------------------------

  /** The EventStreamPosition extension of a received body. */
  datatype Position = Absent | Malformed | At(streamId: Uuid, offset: nat)

  datatype Body = Body(position: Position, typeId: Uuid, payload: nat, size: nat, valid: bool)

  /** An event on the wire. A multi-envelope is a run of items begun by one that
      `opens` it and sharing that one's header, which is sent once. */
  datatype Item = Item(opens: bool, header: Header, body: Body)

  datatype Message = Message(streamId: Uuid, begin: nat, end: nat, items: seq<Item>)

  predicate ValidId(id: Uuid) { id != 0 }

  function ItemOf(e: Envelope, opens: bool): Item {
    Item(opens, e.header, Body(At(e.streamId, e.offset), e.typeId, e.payload, e.bodySize, e.bodyValid))
  }

  function EnvelopeOf(item: Item): Envelope {
    var at := if item.body.position.At? then item.body.position else At(0, 0);
    Envelope(at.streamId, at.offset, item.body.typeId, item.header, item.body.payload, item.body.size, item.body.valid)
  }

  function Events(items: seq<Item>): seq<Envelope> {
    seq(|items|, k requires 0 <= k < |items| => EnvelopeOf(items[k]))
  }

  /** The segment that a message stands for. */
  function View(m: Message): Segment {
    Segment(m.streamId, m.begin, m.end, Events(m.items))
  }

  function Views(ms: seq<Message>): seq<Segment> {
    seq(|ms|, k requires 0 <= k < |ms| => View(ms[k]))
  }

  /** The segments are those of the first messages. */
  predicate AreViews(segs: seq<Segment>, ms: seq<Message>) {
    |segs| <= |ms| && forall k :: 0 <= k < |segs| ==> segs[k] == View(ms[k])
  }

  /** The combined size of the events, each header counted once per multi-envelope. */
  ghost function Size(items: seq<Item>): nat {
    if items == [] then 0
    else
      var last := items[|items| - 1];
      Size(items[..|items| - 1]) + last.body.size + if last.opens then last.header.size else 0
  }

  /** Within the limit, or a single event that is larger on its own. */
  ghost predicate Fits(items: seq<Item>, maxBytes: nat) {
    Size(items) <= maxBytes || |items| == 1
  }

  /** Every body carries its position, offsets ascend within [begin, limit), and an
      event shares the multi-envelope of the one before it exactly if their headers
      are equal. */
  ghost predicate Ordered(items: seq<Item>, begin: nat, limit: nat) {
    if items == [] then begin <= limit
    else
      var init, last := items[..|items| - 1], items[|items| - 1];
      && last.body.position.At? && last.body.position.offset < limit
      && (last.opens <==> init == [] || init[|init| - 1].header != last.header)
      && Ordered(init, begin, last.body.position.offset)
  }

  // ---- Splitting -----------------------------------------------------------------

  ghost predicate Full(items: seq<Item>, e: Envelope, maxBytes: nat) {
    Size(items) + e.header.size + e.bodySize > maxBytes
  }

  /** One message of a split: it fits, and its events are in order and in range. */
  ghost predicate Part(m: Message, id: Uuid, maxBytes: nat) {
    m.streamId == id && Fits(m.items, maxBytes) && Ordered(m.items, m.begin, m.end)
  }

  /** The part before `next` was closed because the first event of `next` did not fit. */
  ghost predicate Follows(parts: seq<Message>, next: seq<Item>, maxBytes: nat) {
    parts == [] || (next != [] && Full(parts[|parts| - 1].items, EnvelopeOf(next[0]), maxBytes))
  }

  ghost predicate Parts(parts: seq<Message>, id: Uuid, maxBytes: nat) {
    parts == [] ||
    var init, last := parts[..|parts| - 1], parts[|parts| - 1];
    Part(last, id, maxBytes) && Follows(init, last.items, maxBytes) && Parts(init, id, maxBytes)
  }

  /** The parts are contiguous, cover [begin, end), hold exactly these events in
      order, each fits, and none was closed early. */
  ghost predicate IsSplit(parts: seq<Message>, id: Uuid, begin: nat, end: nat, events: seq<Envelope>, maxBytes: nat) {
    && Chained(Views(parts), begin, end)
    && Concat(Views(parts)) == events
    && Parts(parts, id, maxBytes)
  }

  lemma {:induction false} AddPart(parts: seq<Message>, m: Message, begin: nat, events: seq<Envelope>, maxBytes: nat)
    requires IsSplit(parts, m.streamId, begin, m.begin, events, maxBytes)
    requires Part(m, m.streamId, maxBytes) && Follows(parts, m.items, maxBytes) && m.begin <= m.end
    ensures IsSplit(parts + [m], m.streamId, begin, m.end, events + Events(m.items), maxBytes)
  {
    assert (parts + [m])[..|parts|] == parts;
    assert Views(parts + [m]) == Views(parts) + [View(m)];
    ChainedAppend(Views(parts), View(m), begin);
  }

  /** Event k is of positive size, in range, and before the next event. */
  ghost predicate Placed(seg: Segment, k: nat)
    requires k < |seg.envelopes|
  {
    && 0 < seg.envelopes[k].bodySize
    && seg.begin <= seg.envelopes[k].offset < if k + 1 < |seg.envelopes| then seg.envelopes[k + 1].offset else seg.end
  }

  /** What splitSegment is given: events in range and in offset order. */
  ghost predicate Splittable(seg: Segment) {
    seg.begin <= seg.end && forall k: nat :: k < |seg.envelopes| ==> Placed(seg, k)
  }

  lemma {:induction false} TakeNext(s: seq<Envelope>, xs: seq<Envelope>, ys: seq<Envelope>, n: nat)
    requires n < |s| && xs + ys == s[..n]
    ensures xs + (ys + [s[n]]) == s[..n + 1]
  {
  }

  /** The part being filled: its items stand for `held`. */
  ghost predicate Filling(items: seq<Item>, held: seq<Envelope>, begin: nat, limit: nat, maxBytes: nat) {
    && held == Events(items)
    && Fits(items, maxBytes) && begin <= limit && Ordered(items, begin, limit)
    && (Size(items) == 0 <==> items == [])
  }

  lemma {:induction false} JoinStep(items: seq<Item>, held: seq<Envelope>, begin: nat, limit: nat, maxBytes: nat,
                                    e: Envelope, opens: bool)
    requires Filling(items, held, begin, limit, maxBytes) && limit <= e.offset && 0 < e.bodySize
    requires items == [] || !Full(items, e, maxBytes)
    requires opens <==> items == [] || items[|items| - 1].header != e.header
    ensures Filling(items + [ItemOf(e, opens)], held + [e], begin, e.offset + 1, maxBytes)
    ensures Size(items + [ItemOf(e, opens)]) == Size(items) + e.bodySize + if opens then e.header.size else 0
  {
  }

  lemma {:induction false} CutStep(parts: seq<Message>, sent: seq<Envelope>, m: Message, held: seq<Envelope>,
                                   begin: nat, limit: nat, maxBytes: nat)
    requires IsSplit(parts, m.streamId, begin, m.begin, sent, maxBytes)
    requires Filling(m.items, held, m.begin, limit, maxBytes) && limit <= m.end && Follows(parts, m.items, maxBytes)
    ensures IsSplit(parts + [m], m.streamId, begin, m.end, sent + held, maxBytes)
  {
    AddPart(parts, m, begin, sent, maxBytes);
  }

  /** What splitSegment has so far: the closed parts, and where the part being filled begins,
      its items and their size. */
  datatype Cutting = Cutting(parts: seq<Message>, begin: nat, items: seq<Item>, size: nat)

  /** The loop invariant before event n: the closed parts hold `sent`, and the part being
      filled holds `held`, below `limit`. It is used below as an equation, like IsSplit, which
      keeps the verifier from expanding it at every use. */
  ghost predicate Splitting(c: Cutting, sent: seq<Envelope>, held: seq<Envelope>, limit: nat, seg: Segment, n: nat,
                            maxBytes: nat) {
    && n <= |seg.envelopes|
    && IsSplit(c.parts, seg.streamId, seg.begin, c.begin, sent, maxBytes)
    && Filling(c.items, held, c.begin, limit, maxBytes)
    && c.size == Size(c.items) && Follows(c.parts, c.items, maxBytes)
    && sent + held == seg.envelopes[..n]
    && limit <= if n < |seg.envelopes| then seg.envelopes[n].offset else seg.end
  }

  predicate MustCut(c: Cutting, e: Envelope, maxBytes: nat) {
    c.size > 0 && c.size + e.header.size + e.bodySize > maxBytes
  }

  /** The part being filled is closed before the event, which begins another. */
  function CutBefore(c: Cutting, id: Uuid, e: Envelope): Cutting {
    Cutting(c.parts + [Message(id, c.begin, e.offset, c.items)], e.offset, [ItemOf(e, true)],
      e.header.size + e.bodySize)
  }

  /** The event joins the part being filled; TryAppendEnvelope succeeds if its header is that
      of the event before it. */
  function JoinTo(c: Cutting, e: Envelope): Cutting {
    var opens := c.items == [] || c.items[|c.items| - 1].header != e.header;
    c.(items := c.items + [ItemOf(e, opens)], size := c.size + e.bodySize + if opens then e.header.size else 0)
  }

  lemma {:induction false} SplittingStart(seg: Segment, maxBytes: nat)
    requires Splittable(seg)
    ensures true == Splitting(Cutting([], seg.begin, [], 0), [], [], seg.begin, seg, 0, maxBytes)
  {
    assert seg.envelopes != [] ==> Placed(seg, 0);
    assert Views([]) == [] && Events([]) == [];
  }

  lemma {:induction false} SingleItem(e: Envelope, maxBytes: nat)
    requires 0 < e.bodySize
    ensures Filling([ItemOf(e, true)], [e], e.offset, e.offset + 1, maxBytes)
    ensures Size([ItemOf(e, true)]) == e.header.size + e.bodySize
  {
    assert [ItemOf(e, true)][..0] == [];
  }

  lemma {:induction false} SplittingCut(c: Cutting, sent: seq<Envelope>, held: seq<Envelope>, limit: nat,
                                        seg: Segment, n: nat, maxBytes: nat)
    requires true == Splitting(c, sent, held, limit, seg, n, maxBytes) && n < |seg.envelopes| && Placed(seg, n)
    requires MustCut(c, seg.envelopes[n], maxBytes)
    ensures var e := seg.envelopes[n];
      true == Splitting(CutBefore(c, seg.streamId, e), sent + held, [e], e.offset + 1, seg, n + 1, maxBytes)
  {
    var e := seg.envelopes[n];
    CutStep(c.parts, sent, Message(seg.streamId, c.begin, e.offset, c.items), held, seg.begin, limit, maxBytes);
    SingleItem(e, maxBytes);
  }

  lemma {:induction false} SplittingJoin(c: Cutting, sent: seq<Envelope>, held: seq<Envelope>, limit: nat,
                                         seg: Segment, n: nat, maxBytes: nat)
    requires true == Splitting(c, sent, held, limit, seg, n, maxBytes) && n < |seg.envelopes| && Placed(seg, n)
    requires !MustCut(c, seg.envelopes[n], maxBytes)
    ensures var e := seg.envelopes[n];
      true == Splitting(JoinTo(c, e), sent, held + [e], e.offset + 1, seg, n + 1, maxBytes)
  {
    var e := seg.envelopes[n];
    var opens := c.items == [] || c.items[|c.items| - 1].header != e.header;
    JoinStep(c.items, held, c.begin, limit, maxBytes, e, opens);
    FollowsNext(c.parts, c.items, ItemOf(e, opens), maxBytes);
    TakeNext(seg.envelopes, sent, held, n);
  }

  lemma {:induction false} FollowsNext(parts: seq<Message>, items: seq<Item>, item: Item, maxBytes: nat)
    requires Follows(parts, items, maxBytes)
    ensures Follows(parts, items + [item], maxBytes)
  {
  }

  lemma {:induction false} SplittingEnd(c: Cutting, sent: seq<Envelope>, held: seq<Envelope>, limit: nat,
                                        seg: Segment, maxBytes: nat)
    requires true == Splitting(c, sent, held, limit, seg, |seg.envelopes|, maxBytes)
    ensures IsSplit(c.parts + [Message(seg.streamId, c.begin, seg.end, c.items)], seg.streamId, seg.begin,
      seg.end, seg.envelopes, maxBytes)
  {
    CutStep(c.parts, sent, Message(seg.streamId, c.begin, seg.end, c.items), held, seg.begin, limit, maxBytes);
    assert seg.envelopes[..|seg.envelopes|] == seg.envelopes;
  }

  /** splitSegment. */
  method SplitSegment(seg: Segment, maxBytes: nat) returns (parts: seq<Message>)
    requires Splittable(seg)
    ensures parts != [] && true == IsSplit(parts, seg.streamId, seg.begin, seg.end, seg.envelopes, maxBytes)
  {
    var c := Cutting([], seg.begin, [], 0);
    ghost var sent: seq<Envelope>, held: seq<Envelope>, limit: nat := [], [], seg.begin;
    SplittingStart(seg, maxBytes);
    for i := 0 to |seg.envelopes|
      invariant true == Splitting(c, sent, held, limit, seg, i, maxBytes)
    {
      var e := seg.envelopes[i];
      assert Placed(seg, i);
      if MustCut(c, e, maxBytes) {
        SplittingCut(c, sent, held, limit, seg, i, maxBytes);
        c := CutBefore(c, seg.streamId, e);
        sent, held := sent + held, [e];
      } else {
        SplittingJoin(c, sent, held, limit, seg, i, maxBytes);
        c := JoinTo(c, e);
        held := held + [e];
      }
      limit := e.offset + 1;
    }
    SplittingEnd(c, sent, held, limit, seg, maxBytes);
    parts := c.parts + [Message(seg.streamId, c.begin, seg.end, c.items)];
  }

  // ---- Parsing ---------------------------------------------------------------------

  /** A segment that a source delivers for these types. */
  ghost predicate WellFormed(seg: Segment, types: Types) {
    && ValidId(seg.streamId)
    && seg.begin <= seg.end
    && Sorted(seg.envelopes) && Within(seg.envelopes, seg.begin, seg.end)
    && forall k :: 0 <= k < |seg.envelopes| ==> GoodEvent(seg.envelopes[k], seg.streamId, types)
  }

  predicate GoodEvent(e: Envelope, id: Uuid, types: Types) {
    e.streamId == id && Wants(types, e.typeId) && e.header.valid && e.bodyValid && 0 < e.bodySize
  }

  /** Item k is a valid event of the message's stream, of a wanted type, in range, and
      after the event before it. */
  predicate ItemOk(m: Message, types: Types, k: nat)
    requires k < |m.items|
  {
    var item := m.items[k];
    && item.header.valid && item.body.valid
    && item.body.position.At? && item.body.position.streamId == m.streamId
    && m.begin <= item.body.position.offset < m.end
    && Wants(types, item.body.typeId)
    && (k > 0 ==> m.items[k - 1].body.position.At? && m.items[k - 1].body.position.offset < item.body.position.offset)
  }

  predicate Acceptable(m: Message, types: Types) {
    ValidId(m.streamId) && m.begin <= m.end && forall k: nat :: k < |m.items| ==> ItemOk(m, types, k)
  }

  /** parseSegment: a message is accepted exactly if it is acceptable, and then as the
      segment it stands for. */
  method ParseSegment(m: Message, types: Types) returns (r: Option<Segment>)
    ensures r.Some? <==> Acceptable(m, types)
    ensures r.Some? ==> r.value == View(m)
  {
    if !ValidId(m.streamId) || m.end < m.begin {
      return None;
    }
    var envelopes := [];
    var next := m.begin;
    for i := 0 to |m.items|
      invariant forall k: nat :: k < i ==> ItemOk(m, types, k)
      invariant envelopes == Events(m.items[..i])
      invariant i > 0 ==> m.items[i - 1].body.position.At? && next == m.items[i - 1].body.position.offset + 1
      invariant i == 0 ==> next == m.begin
    {
      var item := m.items[i];
      if !item.header.valid || !item.body.valid || !item.body.position.At?
        || item.body.position.streamId != m.streamId {
        assert !ItemOk(m, types, i);
        return None;
      }
      var offset := item.body.position.offset;
      if offset < m.begin || offset >= m.end || offset < next || !Wants(types, item.body.typeId) {
        assert !ItemOk(m, types, i);
        return None;
      }
      assert ItemOk(m, types, i);
      assert Events(m.items[..i + 1]) == Events(m.items[..i]) + [EnvelopeOf(item)];
      envelopes := envelopes + [EnvelopeOf(item)];
      next := offset + 1;
    }
    assert m.items[..|m.items|] == m.items;
    r := Some(Segment(m.streamId, m.begin, m.end, envelopes));
  }

  /** An accepted message stands for events in offset order, in range, of the wanted
      types and of its own stream: nothing malformed gets past the client. */
  lemma {:induction false} AcceptedInOrder(m: Message, types: Types, n: nat)
    requires Acceptable(m, types) && n <= |m.items|
    ensures forall j, k :: 0 <= j < k < n ==> Events(m.items)[j].offset < Events(m.items)[k].offset
    ensures forall k :: 0 <= k < n ==>
      var e := Events(m.items)[k];
      && m.begin <= e.offset < m.end && e.streamId == m.streamId && Wants(types, e.typeId)
      && e.header.valid && e.bodyValid
  {
    if n > 0 {
      AcceptedInOrder(m, types, n - 1);
      assert ItemOk(m, types, n - 1);
      if n > 1 {
        assert ItemOk(m, types, n - 2);
        assert Events(m.items)[n - 2].offset < Events(m.items)[n - 1].offset;
        forall j | 0 <= j < n - 1 ensures Events(m.items)[j].offset < Events(m.items)[n - 1].offset {
          assert j < n - 2 ==> Events(m.items)[j].offset < Events(m.items)[n - 2].offset;
        }
      }
    }
  }

  /** A body that carries its position in the message's range and stream, of a wanted type. */
  predicate InPlace(m: Message, types: Types, item: Item) {
    && item.header.valid && item.body.valid
    && item.body.position.At? && item.body.position.streamId == m.streamId
    && m.begin <= item.body.position.offset < m.end
    && (types.Every? || item.body.typeId in types.ids)
  }

  lemma {:induction false} InPlaceEnough(m: Message, types: Types, k: nat)
    requires k < |m.items| && forall j :: 0 <= j < |m.items| ==> InPlace(m, types, m.items[j])
    requires Sorted(Events(m.items))
    ensures ItemOk(m, types, k)
  {
    assert InPlace(m, types, m.items[k]);
    if k > 0 {
      assert InPlace(m, types, m.items[k - 1]);
      assert Events(m.items)[k - 1].offset < Events(m.items)[k].offset;
    }
  }

  /** The client accepts exactly the messages that have an ID and a range, and whose events
      are valid, of the stream and of the wanted types, in range, and in order. */
  lemma {:induction false} AcceptedExactly(m: Message, types: Types)
    ensures Acceptable(m, types) <==>
      && m.streamId != 0 && m.begin <= m.end
      && (forall k :: 0 <= k < |m.items| ==> InPlace(m, types, m.items[k]))
      && Sorted(Events(m.items))
  {
    if Acceptable(m, types) {
      AcceptedInOrder(m, types, |m.items|);
      forall k | 0 <= k < |m.items| ensures InPlace(m, types, m.items[k]) {
        assert ItemOk(m, types, k);
      }
    } else if (forall k :: 0 <= k < |m.items| ==> InPlace(m, types, m.items[k])) && Sorted(Events(m.items)) {
      forall k: nat | k < |m.items| ensures ItemOk(m, types, k) {
        InPlaceEnough(m, types, k);
      }
    }
  }

  // ---- Round trip --------------------------------------------------------------------

  lemma {:induction false} OrderedAt(items: seq<Item>, begin: nat, limit: nat)
    requires Ordered(items, begin, limit)
    ensures begin <= limit
    ensures forall k :: 0 <= k < |items| ==>
      items[k].body.position.At? && begin <= items[k].body.position.offset < limit
    ensures forall j, k :: 0 <= j && k == j + 1 < |items| ==>
      items[j].body.position.offset < items[k].body.position.offset
  {
    if items != [] {
      OrderedAt(items[..|items| - 1], begin, items[|items| - 1].body.position.offset);
    }
  }

  lemma {:induction false} PartAccepted(m: Message, types: Types, maxBytes: nat)
    requires Part(m, m.streamId, maxBytes) && ValidId(m.streamId)
    requires forall k :: 0 <= k < |m.items| ==> GoodEvent(Events(m.items)[k], m.streamId, types)
    ensures Acceptable(m, types)
  {
    OrderedAt(m.items, m.begin, m.end);
    forall k: nat | k < |m.items| ensures ItemOk(m, types, k) {
      assert GoodEvent(Events(m.items)[k], m.streamId, types);
    }
  }

  /** Every part of the split of a well-formed segment is accepted. */
  lemma {:induction false} PartsAccepted(parts: seq<Message>, id: Uuid, begin: nat, end: nat, events: seq<Envelope>,
                                         maxBytes: nat, types: Types)
    requires IsSplit(parts, id, begin, end, events, maxBytes) && ValidId(id)
    requires forall k :: 0 <= k < |events| ==> GoodEvent(events[k], id, types)
    ensures forall p :: 0 <= p < |parts| ==> parts[p].streamId == id && Acceptable(parts[p], types)
  {
    if parts != [] {
      var init, last := parts[..|parts| - 1], parts[|parts| - 1];
      var before := Concat(Views(init));
      assert Views(parts)[..|parts| - 1] == Views(init);
      assert events == before + Events(last.items);
      forall k | 0 <= k < |before| ensures GoodEvent(before[k], id, types) {
        assert before[k] == events[k];
      }
      PartsAccepted(init, id, begin, last.begin, before, maxBytes, types);
      forall k | 0 <= k < |last.items| ensures GoodEvent(Events(last.items)[k], id, types) {
        assert Events(last.items)[k] == events[|before| + k];
      }
      PartAccepted(last, types, maxBytes);
    }
  }

  lemma {:induction false} WellFormedSplittable(seg: Segment, types: Types)
    requires WellFormed(seg, types)
    ensures Splittable(seg)
  {
  }

  lemma {:induction false} ViewsConcat(xs: seq<Message>, ys: seq<Message>, a: nat, b: nat, c: nat)
    requires Chained(Views(xs), a, b) && Chained(Views(ys), b, c)
    ensures Chained(Views(xs + ys), a, c)
    ensures Concat(Views(xs + ys)) == Concat(Views(xs)) + Concat(Views(ys))
  {
    assert Views(xs + ys) == Views(xs) + Views(ys);
    ChainedJoin(Views(xs), Views(ys), a, b, c);
    ConcatJoin(Views(xs), Views(ys));
  }

  /** What the events take up on the wire: every body, and a header for each run of events
      that have the same one. */
  ghost function Encoded(events: seq<Envelope>): nat {
    if events == [] then 0
    else
      var init, last := events[..|events| - 1], events[|events| - 1];
      Encoded(init) + last.bodySize +
        if init == [] || init[|init| - 1].header != last.header then last.header.size else 0
  }

  lemma {:induction false} SizeIsEncoded(items: seq<Item>, begin: nat, limit: nat)
    requires Ordered(items, begin, limit)
    ensures Size(items) == Encoded(Events(items))
  {
    if items != [] {
      var init, last := items[..|items| - 1], items[|items| - 1];
      SizeIsEncoded(init, begin, last.body.position.offset);
      assert Events(items)[..|items| - 1] == Events(init);
    }
  }

  lemma {:induction false} PartsFit(parts: seq<Message>, id: Uuid, maxBytes: nat)
    requires Parts(parts, id, maxBytes)
    ensures forall p :: 0 <= p < |parts| ==>
      && Fits(parts[p].items, maxBytes)
      && (1 < |parts[p].items| ==> Encoded(Events(parts[p].items)) <= maxBytes)
  {
    if parts != [] {
      var last := parts[|parts| - 1];
      PartsFit(parts[..|parts| - 1], id, maxBytes);
      SizeIsEncoded(last.items, last.begin, last.end);
    }
  }

  /** A message that the client of a read from `id` accepts. */
  ghost predicate Sendable(m: Message, id: Uuid, types: Types, maxBytes: nat) {
    m.streamId == id && Acceptable(m, types) && Fits(m.items, maxBytes)
  }

  method SendSegment(seg: Segment, maxBytes: nat, ghost types: Types) returns (parts: seq<Message>)
    requires WellFormed(seg, types)
    ensures parts != [] && Chained(Views(parts), seg.begin, seg.end) && Concat(Views(parts)) == seg.envelopes
    ensures forall k :: 0 <= k < |parts| ==> Sendable(parts[k], seg.streamId, types, maxBytes)
    ensures forall k :: 0 <= k < |parts| && 1 < |parts[k].items| ==> Encoded(Events(parts[k].items)) <= maxBytes
  {
    WellFormedSplittable(seg, types);
    parts := SplitSegment(seg, maxBytes);
    PartsAccepted(parts, seg.streamId, seg.begin, seg.end, seg.envelopes, maxBytes, types);
    PartsFit(parts, seg.streamId, maxBytes);
  }

  /** The messages stand for the segments, from `begin` to `end`, and a client accepts them. */
  ghost predicate Served(msgs: seq<Message>, segs: seq<Segment>, id: Uuid, types: Types, begin: nat, end: nat,
                         maxBytes: nat)
  {
    && Chained(Views(msgs), begin, end) && Concat(Views(msgs)) == Concat(segs)
    && forall k :: 0 <= k < |msgs| ==> Sendable(msgs[k], id, types, maxBytes)
  }

  lemma {:induction false} ServedNext(msgs: seq<Message>, parts: seq<Message>, segs: seq<Segment>, i: nat,
                                      id: Uuid, types: Types, begin: nat, end: nat, maxBytes: nat)
    requires Chained(segs, begin, end) && i < |segs| && segs[i].streamId == id
    requires Served(msgs, segs[..i], id, types, begin, segs[i].begin, maxBytes)
    requires Chained(Views(parts), segs[i].begin, segs[i].end) && Concat(Views(parts)) == segs[i].envelopes
    requires forall k :: 0 <= k < |parts| ==> Sendable(parts[k], id, types, maxBytes)
    ensures Served(msgs + parts, segs[..i + 1], id, types, begin, segs[i].end, maxBytes)
    ensures segs[i].end == if i + 1 < |segs| then segs[i + 1].begin else end
  {
    ChainedAt(segs, begin, end, i);
    ViewsConcat(msgs, parts, begin, segs[i].begin, segs[i].end);
  }

  /** Server.ReadEvents over the segments that the underlying Read delivers. */
  method ServeRead(segs: seq<Segment>, maxBytes: nat, id: Uuid, types: Types, begin: nat, end: nat)
    returns (msgs: seq<Message>)
    requires Chained(segs, begin, end)
    requires forall k :: 0 <= k < |segs| ==> segs[k].streamId == id && WellFormed(segs[k], types)
    ensures Served(msgs, segs, id, types, begin, end, maxBytes)
  {
    msgs := [];
    if segs != [] {
      ChainedAt(segs, begin, end, 0);
      ChainedEndUnique([], begin, begin, segs[0].begin);
    }
    for i := 0 to |segs|
      // "true ==" keeps the verifier from taking the predicate apart at every turn.
      invariant true == Served(msgs, segs[..i], id, types, begin, if i < |segs| then segs[i].begin else end, maxBytes)
    {
      var parts := SendSegment(segs[i], maxBytes, types);
      ServedNext(msgs, parts, segs, i, id, types, begin, end, maxBytes);
      msgs := msgs + parts;
    }
    assert segs[..|segs|] == segs;
  }

  /** What a read of `id` has delivered of the messages: contiguous segments, each as it was
      sent. */
  ghost predicate Received(delivered: seq<Segment>, msgs: seq<Message>, id: Uuid, types: Types, begin: nat, end: nat) {
    && AreViews(delivered, msgs) && Chained(delivered, begin, end)
    && forall k :: 0 <= k < |delivered| ==> msgs[k].streamId == id && Acceptable(msgs[k], types)
  }

  lemma {:induction false} ReceivedNext(delivered: seq<Segment>, msgs: seq<Message>, id: Uuid, types: Types,
                                        begin: nat, end: nat)
    requires Received(delivered, msgs, id, types, begin, end) && |delivered| < |msgs|
    requires var m := msgs[|delivered|]; m.streamId == id && Acceptable(m, types) && m.begin == end
    ensures var m := msgs[|delivered|]; Received(delivered + [View(m)], msgs, id, types, begin, m.end)
  {
    ChainedAppend(delivered, View(msgs[|delivered|]), begin);
  }

  /** Remote.Read over whatever messages arrive: the segments passed to fn are the
      messages' own, contiguous from the requested offset. The read fails at the first
      message that is unacceptable, of another stream, or not where the last one ended. */
  method RemoteRead(msgs: seq<Message>, id: Uuid, types: Types, begin: nat)
    returns (delivered: seq<Segment>, ok: bool, end: nat)
    ensures Received(delivered, msgs, id, types, begin, end)
    ensures ok <==> |delivered| == |msgs|
    ensures !ok ==> var bad := msgs[|delivered|]; !Acceptable(bad, types) || bad.streamId != id || bad.begin != end
  {
    delivered, end := [], begin;
    for i := 0 to |msgs|
      // "true ==" keeps the verifier from taking the predicate apart at every turn.
      invariant |delivered| == i && true == Received(delivered, msgs, id, types, begin, end)
    {
      var seg := ParseSegment(msgs[i], types);
      if seg.None? || seg.value.streamId != id || seg.value.begin != end {
        return delivered, false, end;
      }
      ReceivedNext(delivered, msgs, id, types, begin, end);
      delivered := delivered + [seg.value];
      end := seg.value.end;
    }
    ok := true;
  }

  /** A read of messages that are all acceptable and contiguous receives all of them. */
  lemma {:induction false} ReceivedAll(delivered: seq<Segment>, msgs: seq<Message>, id: Uuid, types: Types,
                                       begin: nat, at: nat, end: nat)
    requires Received(delivered, msgs, id, types, begin, at) && Chained(Views(msgs), begin, end)
    ensures |delivered| < |msgs| ==> msgs[|delivered|].begin == at
    ensures |delivered| == |msgs| ==> delivered == Views(msgs) && at == end
  {
    assert Views(msgs)[..|delivered|] == delivered;
    ChainedPrefixEnd(Views(msgs), begin, end, |delivered|, at);
  }

  lemma {:induction false} FaithfulWellFormed(seg: Segment, log: Log, types: Types)
    requires ValidLog(log) && Faithful(seg, log, types) && ValidId(seg.streamId)
    requires forall k :: 0 <= k < |log.events| ==> GoodEvent(log.events[k], seg.streamId, Every)
    ensures WellFormed(seg, types)
  {
    SliceSorted(log.events, types, seg.begin, seg.end);
    SliceMembers(log.events, types, seg.begin, seg.end);
    forall k | 0 <= k < |seg.envelopes| ensures GoodEvent(seg.envelopes[k], seg.streamId, types) {
      assert seg.envelopes[k] in seg.envelopes;
    }
  }

  /** Remote.Read over Server.ReadEvents delivers exactly what the underlying Read
      does, whatever the size limit: the log's events of the wanted types. */
  method ReadOverWire(segs: seq<Segment>, maxBytes: nat, id: Uuid, types: Types, begin: nat, end: nat, ghost log: Log)
    returns (delivered: seq<Segment>, ok: bool)
    requires ValidLog(log) && ValidId(id)
    requires forall k :: 0 <= k < |log.events| ==> GoodEvent(log.events[k], id, Every)
    requires Chained(segs, begin, end)
    requires forall k :: 0 <= k < |segs| ==> segs[k].streamId == id && Faithful(segs[k], log, types)
    ensures ok
    ensures Chained(delivered, begin, end)
    ensures Concat(delivered) == Slice(log.events, types, begin, end)
  {
    forall k | 0 <= k < |segs| ensures WellFormed(segs[k], types) {
      FaithfulWellFormed(segs[k], log, types);
    }
    ChainIsSlice(segs, log, types, begin, end);
    var msgs := ServeRead(segs, maxBytes, id, types, begin, end);
    var at;
    delivered, ok, at := RemoteRead(msgs, id, types, begin);
    ReceivedAll(delivered, msgs, id, types, begin, at, end);
  }
}
