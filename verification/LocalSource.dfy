/** The local source's fan-out: one follower per stream delivers to a bounded buffer for
    each call to Watch (internal/eventstream/source/local.go). Each method below that keeps
    Valid() is one query, one critical section or one channel operation, so the invariant
    holds between any two of them however they interleave. */
module LocalSource {
  import opened Stream
  import opened HistoricalReads

  type CallId = nat

  datatype Reason = TooSlow | Unwatchable

  /** A call to Local.Watch. `segs` is everything addressed to it, in order: its opening
      segments, then what was sent on its channel. fn has been passed the first `given`
      of them, so the rest, from the openings on, are buffered in the channel. */
  datatype Call = Call(segs: seq<Segment>, openings: nat, given: nat, closed: bool, err: Option<Reason>)

  function Max(a: nat, b: nat): nat { if a < b then b else a }

  function Buffered(c: Call): int { |c.segs| - Max(c.openings, c.given) }

  /** deliverStream: whether it has sent the stream's opening segment, where the next one
      begins, and a segment that it has loaded from the database but not yet delivered. */
  datatype Follower = Follower(begun: bool, next: nat, loaded: Option<Segment>)

  // ---- Chains of segments of several streams ---------------------------------------

  /** Where the segments leave a stream, if they mention it. */
  ghost function EndOf(id: Uuid, segs: seq<Segment>): Option<nat> {
    if segs == [] then None
    else if segs[|segs| - 1].streamId == id then Some(segs[|segs| - 1].end)
    else EndOf(id, segs[..|segs| - 1])
  }

  /** Where the segments pick a stream up. */
  ghost function StartOf(id: Uuid, segs: seq<Segment>): Option<nat> {
    if segs == [] then None
    else
      var init, last := segs[..|segs| - 1], segs[|segs| - 1];
      if StartOf(id, init).None? && last.streamId == id then Some(last.begin) else StartOf(id, init)
  }

  /** Each segment begins where the previous one of its stream ended. */
  ghost predicate Linked(segs: seq<Segment>) {
    segs == [] ||
    var init, last := segs[..|segs| - 1], segs[|segs| - 1];
    && Linked(init)
    && last.begin <= last.end
    && (EndOf(last.streamId, init).Some? ==> EndOf(last.streamId, init).value == last.begin)
  }

  ghost predicate AllFaithful(segs: seq<Segment>, logs: map<Uuid, Log>) {
    forall k :: 0 <= k < |segs| ==> FaithfulIn(segs[k], logs)
  }

  ghost predicate FaithfulIn(seg: Segment, logs: map<Uuid, Log>) {
    seg.streamId in logs && ValidLog(logs[seg.streamId]) && Faithful(seg, logs[seg.streamId], Every)
  }

  lemma {:induction false} LinkedNext(segs: seq<Segment>, seg: Segment)
    requires Linked(segs) && seg.begin <= seg.end
    requires EndOf(seg.streamId, segs).Some? ==> EndOf(seg.streamId, segs).value == seg.begin
    ensures Linked(segs + [seg])
    ensures forall id :: EndOf(id, segs + [seg]) == if id == seg.streamId then Some(seg.end) else EndOf(id, segs)
  {
  }

  lemma {:induction false} LinkedPrefix(segs: seq<Segment>, n: nat)
    requires Linked(segs) && n <= |segs|
    ensures Linked(segs[..n])
  {
    if n == |segs| {
      assert segs[..n] == segs;
    } else {
      LinkedPrefix(segs[..|segs| - 1], n);
      assert segs[..|segs| - 1][..n] == segs[..n];
    }
  }

  /** Local.Watch passes each segment through filterSegment. */
  method FilterSegment(seg: Segment, types: Types) returns (r: Segment)
    requires Within(seg.envelopes, seg.begin, seg.end)
    ensures r == seg.(envelopes := Slice(seg.envelopes, types, seg.begin, seg.end))
  {
    if types.Every? {
      SliceAll(seg.envelopes, types, seg.begin, seg.end);
      return seg;
    }
    var envelopes := [];
    for i := 0 to |seg.envelopes|
      invariant envelopes == Slice(seg.envelopes[..i], types, seg.begin, seg.end)
    {
      assert seg.envelopes[..i + 1][..i] == seg.envelopes[..i];
      if Wants(types, seg.envelopes[i].typeId) {
        envelopes := envelopes + [seg.envelopes[i]];
      }
    }
    assert seg.envelopes[..|seg.envelopes|] == seg.envelopes;
    r := seg.(envelopes := envelopes);
  }

  method PassOn(seg: Segment, types: Types, ghost logs: map<Uuid, Log>) returns (r: Segment)
    requires FaithfulIn(seg, logs)
    ensures r == seg.(envelopes := Slice(logs[seg.streamId].events, types, seg.begin, seg.end))
  {
    ghost var events := logs[seg.streamId].events;
    SliceSorted(events, Every, seg.begin, seg.end);
    SliceSlice(events, Every, seg.begin, seg.end, types, seg.begin, seg.end);
    r := FilterSegment(seg, types);
  }

  /** The events of one stream that fn is passed, in order. */
  ghost function EventsOf(id: Uuid, types: Types, segs: seq<Segment>): seq<Envelope> {
    if segs == [] then []
    else
      var init, last := segs[..|segs| - 1], segs[|segs| - 1];
      if last.streamId == id
      then EventsOf(id, types, init) + Slice(last.envelopes, types, last.begin, last.end)
      else EventsOf(id, types, init)
  }

  lemma {:induction false} StartBeforeEnd(id: Uuid, segs: seq<Segment>)
    requires Linked(segs)
    ensures StartOf(id, segs).Some? <==> EndOf(id, segs).Some?
    ensures StartOf(id, segs).Some? ==> StartOf(id, segs).value <= EndOf(id, segs).value
  {
    if segs != [] {
      StartBeforeEnd(id, segs[..|segs| - 1]);
    }
  }

  /** Linked, faithful segments carry exactly a stream's events of the wanted types from
      where they pick it up to where they leave it. */
  lemma {:induction false} LinkedIsSlice(id: Uuid, types: Types, segs: seq<Segment>, logs: map<Uuid, Log>)
    requires Linked(segs) && AllFaithful(segs, logs)
    ensures StartOf(id, segs).None? ==> EventsOf(id, types, segs) == []
    ensures StartOf(id, segs).Some? ==>
      && id in logs && EndOf(id, segs).Some?
      && EventsOf(id, types, segs) == Slice(logs[id].events, types, StartOf(id, segs).value, EndOf(id, segs).value)
  {
    if segs != [] {
      var init, last := segs[..|segs| - 1], segs[|segs| - 1];
      StartBeforeEnd(id, init);
      LinkedIsSlice(id, types, init, logs);
      if last.streamId == id {
        assert FaithfulIn(last, logs);
        var events := logs[id].events;
        SliceSlice(events, Every, last.begin, last.end, types, last.begin, last.end);
        if StartOf(id, init).Some? {
          SliceSplit(events, types, StartOf(id, init).value, last.begin, last.end);
        }
      }
    }
  }

  // ---- Calls -------------------------------------------------------------------------

  ghost predicate CallOk(c: Call, logs: map<Uuid, Log>, bufferSize: nat) {
    && Linked(c.segs) && AllFaithful(c.segs, logs)
    && c.openings <= |c.segs| && c.given <= |c.segs|
    && Buffered(c) <= bufferSize
    && (c.closed <==> c.err.Some?)
  }

  /** The segments leave every stream where the offsets say its next segment begins. */
  ghost predicate Synced(segs: seq<Segment>, offsets: map<Uuid, nat>) {
    forall id :: EndOf(id, segs) == OffsetOf(offsets, id)
  }

  ghost function OffsetOf(offsets: map<Uuid, nat>, id: Uuid): Option<nat> {
    if id in offsets then Some(offsets[id]) else None
  }

  lemma {:induction false} SyncNext(segs: seq<Segment>, seg: Segment, offsets: map<Uuid, nat>)
    requires Linked(segs) && Synced(segs, offsets) && seg.begin <= seg.end
    requires seg.streamId in offsets ==> offsets[seg.streamId] == seg.begin
    ensures Linked(segs + [seg]) && Synced(segs + [seg], offsets[seg.streamId := seg.end])
  {
    assert EndOf(seg.streamId, segs) == OffsetOf(offsets, seg.streamId);
    LinkedNext(segs, seg);
    forall id ensures EndOf(id, segs + [seg]) == OffsetOf(offsets[seg.streamId := seg.end], id) {
      assert EndOf(id, segs) == OffsetOf(offsets, id);
    }
  }

  lemma {:induction false} SendKeeps(c: Call, seg: Segment, offsets: map<Uuid, nat>, logs: map<Uuid, Log>,
                                     bufferSize: nat)
    requires CallOk(c, logs, bufferSize) && Synced(c.segs, offsets) && Buffered(c) < bufferSize
    requires FaithfulIn(seg, logs)
    requires seg.streamId in offsets ==> offsets[seg.streamId] == seg.begin
    ensures var sent := c.(segs := c.segs + [seg]);
      CallOk(sent, logs, bufferSize) && Synced(sent.segs, offsets[seg.streamId := seg.end])
  {
    SyncNext(c.segs, seg, offsets);
  }

  lemma {:induction false} GrowKeeps(c: Call, logs: map<Uuid, Log>, id: Uuid, log: Log, bufferSize: nat)
    requires CallOk(c, logs, bufferSize) && ValidLog(log) && (id in logs ==> Extends(logs[id], log))
    ensures CallOk(c, logs[id := log], bufferSize)
  {
    forall k | 0 <= k < |c.segs| ensures FaithfulIn(c.segs[k], logs[id := log]) {
      FaithfulGrows(c.segs[k], logs, id, log);
    }
  }

  lemma {:induction false} FaithfulGrows(seg: Segment, logs: map<Uuid, Log>, id: Uuid, log: Log)
    requires FaithfulIn(seg, logs) && ValidLog(log) && (id in logs ==> Extends(logs[id], log))
    ensures FaithfulIn(seg, logs[id := log])
  {
    if seg.streamId == id {
      SliceExtends(logs[id], log, Every, seg.begin, seg.end);
    }
  }

  ghost predicate AllEmpty(segs: seq<Segment>) {
    forall k :: 0 <= k < |segs| ==> segs[k].begin == segs[k].end
  }

  ghost predicate Opens(openings: seq<Segment>, offsets: map<Uuid, nat>, logs: map<Uuid, Log>) {
    Linked(openings) && AllFaithful(openings, logs) && Synced(openings, offsets) && AllEmpty(openings)
  }

  lemma {:induction false} OpensNext(openings: seq<Segment>, offsets: map<Uuid, nat>, logs: map<Uuid, Log>,
                                     id: Uuid, offset: nat)
    requires Opens(openings, offsets, logs) && id !in offsets
    requires id in logs && ValidLog(logs[id]) && offset <= logs[id].end
    ensures Opens(openings + [Segment(id, offset, offset, [])], offsets[id := offset], logs)
  {
    SliceNone(logs[id].events, Every, offset, offset);
    SyncNext(openings, Segment(id, offset, offset, []), offsets);
  }

  /** The opening segments of a new call: one for each watched stream, empty, at the
      offset where the stream's next segment begins. */
  method Openings(offsets: map<Uuid, nat>, ghost logs: map<Uuid, Log>) returns (openings: seq<Segment>)
    requires forall id :: id in offsets ==> id in logs && ValidLog(logs[id]) && offsets[id] <= logs[id].end
    ensures Opens(openings, offsets, logs) && |openings| == |offsets|
  {
    openings := [];
    var left := offsets.Keys;
    ghost var done: map<Uuid, nat> := map[];
    while left != {}
      invariant left <= offsets.Keys && done.Keys == offsets.Keys - left
      invariant forall id :: id in done ==> done[id] == offsets[id]
      // "true ==" keeps the verifier from taking the predicate apart at every turn.
      invariant true == Opens(openings, done, logs) && |openings| + |left| == |offsets.Keys|
      decreases left
    {
      var id :| id in left;
      OpensNext(openings, done, logs, id, offsets[id]);
      openings := openings + [Segment(id, offsets[id], offsets[id], [])];
      left := left - {id};
      done := done[id := offsets[id]];
    }
    assert done == offsets;
  }

  // ---- The fan-out ---------------------------------------------------------------------

  /** The streams, where each one's next segment begins, the registered calls, every call
      including those that have ended, and the calls that ended of their own accord. */
  datatype Fanout = Fanout(
    logs: map<Uuid, Log>,
    offsets: map<Uuid, nat>,
    watchers: set<CallId>,
    calls: map<CallId, Call>,
    stopped: set<CallId>,
    bufferSize: nat)

  function Ended(c: Call, reason: Reason): Call {
    c.(closed := true, err := Some(reason))
  }

  /** What delivering a segment does to one call. */
  function Delivered(c: Call, watching: bool, seg: Segment, bufferSize: nat): Call {
    if !watching then c
    else if Buffered(c) < bufferSize then c.(segs := c.segs + [seg])
    else Ended(c, TooSlow)
  }

  function AllDelivered(calls: map<CallId, Call>, watchers: set<CallId>, seg: Segment, bufferSize: nat)
    : map<CallId, Call>
  {
    map w | w in calls :: Delivered(calls[w], w in watchers, seg, bufferSize)
  }

  /** The watchers that have room for it. */
  function Kept(calls: map<CallId, Call>, watchers: set<CallId>, bufferSize: nat): set<CallId> {
    set w | w in watchers && w in calls && Buffered(calls[w]) < bufferSize
  }

  function AllEnded(calls: map<CallId, Call>, watchers: set<CallId>): map<CallId, Call> {
    map w | w in calls :: if w in watchers then Ended(calls[w], Unwatchable) else calls[w]
  }

  /** What delivering a segment does to the whole fan-out. */
  function SentTo(f: Fanout, seg: Segment): Fanout {
    f.(offsets := f.offsets[seg.streamId := seg.end],
       watchers := Kept(f.calls, f.watchers, f.bufferSize),
       calls := AllDelivered(f.calls, f.watchers, seg, f.bufferSize))
  }

  /** One watcher's side of a delivery: it is sent the segment if fewer than bufferSize of
      those sent to it wait to be received, and otherwise it is cut off as too slow. What
      was received, beyond its openings, no longer takes up room. */
  predicate ServedByRoom(before: Call, after: Call, stays: bool, seg: Segment, bufferSize: nat) {
    var received := if before.openings <= before.given then before.given else before.openings;
    if |before.segs| < bufferSize + received then stays && after == before.(segs := before.segs + [seg])
    else !stays && after == before.(closed := true, err := Some(TooSlow))
  }

  /** A delivery as its watchers see it. */
  ghost predicate SentByRoom(f: Fanout, t: Fanout, seg: Segment) {
    && t == f.(offsets := f.offsets[seg.streamId := seg.end], watchers := t.watchers, calls := t.calls)
    && t.watchers <= f.watchers && t.calls.Keys == f.calls.Keys
    && (forall w :: w in f.calls && w !in f.watchers ==> t.calls[w] == f.calls[w])
    && (forall w :: w in f.calls && w in f.watchers ==>
          ServedByRoom(f.calls[w], t.calls[w], w in t.watchers, seg, f.bufferSize))
  }

  /** Every one of the watchers is told that the streams can no longer be watched. */
  ghost predicate CutOff(before: map<CallId, Call>, after: map<CallId, Call>, watchers: set<CallId>) {
    && after.Keys == before.Keys
    && (forall w :: w in before && w in watchers ==>
          after[w] == before[w].(closed := true, err := Some(Unwatchable)))
    && (forall w :: w in before && w !in watchers ==> after[w] == before[w])
  }

  lemma {:induction false} AllEndedCutOff(calls: map<CallId, Call>, watchers: set<CallId>)
    ensures CutOff(calls, AllEnded(calls, watchers), watchers)
  {
  }

  lemma {:induction false} RoomDecides(f: Fanout, seg: Segment)
    ensures SentByRoom(f, SentTo(f, seg), seg)
  {
    forall w | w in f.calls && w in f.watchers
      ensures ServedByRoom(f.calls[w], SentTo(f, seg).calls[w], w in SentTo(f, seg).watchers, seg, f.bufferSize)
    {
    }
  }

  /** Whoever has received everything so far is never too slow, and neither is a watcher
      that was registered only now. */
  lemma {:induction false} ReceivingMakesRoom(f: Fanout, seg: Segment, w: CallId)
    requires 0 < f.bufferSize && w in f.watchers && w in f.calls
    requires f.calls[w].given == |f.calls[w].segs| || f.calls[w].openings == |f.calls[w].segs|
    ensures w in SentTo(f, seg).watchers
    ensures SentTo(f, seg).calls[w] == f.calls[w].(segs := f.calls[w].segs + [seg])
  {
  }

  /** Every call has been sent a gap-free run of each stream, at most bufferSize of it
      unread. A registered call is missing nothing, and its channel is open. Any other
      call stopped by itself, or ends with an error. */
  ghost predicate Serves(f: Fanout) {
    && (forall id :: id in f.logs ==> ValidLog(f.logs[id]))
    && (forall id :: id in f.offsets ==> id in f.logs && f.offsets[id] <= f.logs[id].end)
    && (forall w :: w in f.calls ==> CallOk(f.calls[w], f.logs, f.bufferSize))
    && f.watchers <= f.calls.Keys
    && (forall w :: w in f.watchers ==> !f.calls[w].closed && Synced(f.calls[w].segs, f.offsets))
    && (forall w :: w in f.calls ==> w in f.watchers || w in f.stopped || f.calls[w].closed)
  }

  lemma {:induction false} GrowServes(f: Fanout, id: Uuid, log: Log)
    requires Serves(f) && ValidLog(log) && (id in f.logs ==> Extends(f.logs[id], log))
    ensures Serves(f.(logs := f.logs[id := log]))
  {
    forall w | w in f.calls ensures CallOk(f.calls[w], f.logs[id := log], f.bufferSize) {
      GrowKeeps(f.calls[w], f.logs, id, log, f.bufferSize);
    }
  }

  lemma {:induction false} DeliverServes(f: Fanout, seg: Segment)
    requires Serves(f) && FaithfulIn(seg, f.logs)
    requires seg.streamId in f.offsets ==> f.offsets[seg.streamId] == seg.begin
    ensures Serves(SentTo(f, seg))
  {
    var t := SentTo(f, seg);
    forall w | w in f.calls
      ensures CallOk(t.calls[w], f.logs, f.bufferSize)
      ensures w in t.watchers ==> !t.calls[w].closed && Synced(t.calls[w].segs, t.offsets)
      ensures w in t.watchers || w in t.stopped || t.calls[w].closed
    {
      assert CallOk(f.calls[w], f.logs, f.bufferSize);
      if w in t.watchers {
        SendKeeps(f.calls[w], seg, f.offsets, f.logs, f.bufferSize);
      }
    }
  }

  lemma {:induction false} RegisterServes(f: Fanout, w: CallId, openings: seq<Segment>)
    requires Serves(f) && w !in f.calls
    requires Linked(openings) && AllFaithful(openings, f.logs) && Synced(openings, f.offsets)
    ensures Serves(f.(watchers := f.watchers + {w}, calls := f.calls[w := Call(openings, |openings|, 0, false, None)]))
  {
  }

  lemma {:induction false} ReceiveServes(f: Fanout, w: CallId)
    requires Serves(f) && w in f.calls
    ensures var c := f.calls[w];
      && (c.closed <==> c.err.Some?)
      && (c.given < |c.segs| ==>
            && FaithfulIn(c.segs[c.given], f.logs)
            && Serves(f.(calls := f.calls[w := c.(given := c.given + 1)])))
  {
    assert CallOk(f.calls[w], f.logs, f.bufferSize);
  }

  /** What a receive from a call's channel yields. */
  method NextSegment(c: Call, w: CallId, ghost f: Fanout) returns (seg: Option<Segment>, err: Option<Reason>)
    requires Serves(f) && w in f.calls && f.calls[w] == c
    ensures seg == if c.given < |c.segs| then Some(c.segs[c.given]) else None
    ensures err == if c.given < |c.segs| then None else c.err
    ensures seg.Some? ==> FaithfulIn(seg.value, f.logs) && Serves(f.(calls := f.calls[w := c.(given := c.given + 1)]))
  {
    ReceiveServes(f, w);
    seg, err := None, None;
    if c.given < |c.segs| {
      seg := Some(c.segs[c.given]);
    } else if c.closed {
      err := c.err;
    }
  }

  /** Once a stream fails, no registered call remains, so nothing is missing. */
  lemma {:induction false} FailServes(f: Fanout, id: Uuid)
    requires Serves(f)
    ensures Serves(f.(offsets := f.offsets - {id}, watchers := {}, calls := AllEnded(f.calls, f.watchers)))
  {
    forall w | w in f.calls && w in f.watchers ensures CallOk(Ended(f.calls[w], Unwatchable), f.logs, f.bufferSize) {
      assert CallOk(f.calls[w], f.logs, f.bufferSize);
    }
  }

  /** What fn has been passed of a stream, at any moment of any call, is exactly the
      stream's events of the wanted types from where the call picked it up: nothing
      skipped, repeated or out of order. */
  lemma {:induction false} GivenExactly(c: Call, logs: map<Uuid, Log>, bufferSize: nat, id: Uuid, types: Types)
    requires CallOk(c, logs, bufferSize)
    ensures var given := c.segs[..c.given];
      && (StartOf(id, given).None? ==> EventsOf(id, types, given) == [])
      && (StartOf(id, given).Some? ==>
            && id in logs && EndOf(id, given).Some?
            && EventsOf(id, types, given) ==
               Slice(logs[id].events, types, StartOf(id, given).value, EndOf(id, given).value))
  {
    LinkedPrefix(c.segs, c.given);
    var given := c.segs[..c.given];
    forall k | 0 <= k < |given| ensures FaithfulIn(given[k], logs) {
      assert given[k] == c.segs[k];
    }
    LinkedIsSlice(id, types, given, logs);
  }

  // ---- Followers -------------------------------------------------------------------------

  /** A stream has an offset exactly while its follower has begun it, and that is where the
      follower goes on. A segment that was loaded, however long ago, is exact and begins
      there too. */
  ghost predicate FollowerOk(id: Uuid, f: Follower, offsets: map<Uuid, nat>, logs: map<Uuid, Log>) {
    && id in logs
    && (f.begun <==> id in offsets)
    && (f.begun ==> f.next == offsets[id])
    && (f.loaded.Some? ==>
          && f.loaded.value.streamId == id && FaithfulIn(f.loaded.value, logs)
          && (f.begun ==> f.loaded.value.begin == f.next))
  }

  ghost predicate AllFollow(followers: map<Uuid, Follower>, offsets: map<Uuid, nat>, logs: map<Uuid, Log>) {
    && offsets.Keys <= followers.Keys
    && forall id :: id in followers ==> FollowerOk(id, followers[id], offsets, logs)
  }

  /** A stream may grow between a follower's query and its delivery. */
  lemma {:induction false} GrowFollows(followers: map<Uuid, Follower>, offsets: map<Uuid, nat>, logs: map<Uuid, Log>,
                                       id: Uuid, log: Log)
    requires AllFollow(followers, offsets, logs) && ValidLog(log) && (id in logs ==> Extends(logs[id], log))
    ensures AllFollow(followers, offsets, logs[id := log])
  {
    forall x | x in followers ensures FollowerOk(x, followers[x], offsets, logs[id := log]) {
      if followers[x].loaded.Some? {
        FaithfulGrows(followers[x].loaded.value, logs, id, log);
      }
    }
  }

  lemma {:induction false} FailFollows(followers: map<Uuid, Follower>, offsets: map<Uuid, nat>, logs: map<Uuid, Log>,
                                       id: Uuid)
    requires AllFollow(followers, offsets, logs)
    ensures AllFollow(followers - {id}, offsets - {id}, logs)
  {
  }

  class Local {
    const segmentSize: nat
    const bufferSize: nat
    var logs: map<Uuid, Log>              // the database's streams
    var offsets: map<Uuid, nat>
    var followers: map<Uuid, Follower>
    var watchers: set<CallId>
    var calls: map<CallId, Call>
    var stopped: set<CallId>

    ghost function Fan(): Fanout
      reads this
    {
      Fanout(logs, offsets, watchers, calls, stopped, bufferSize)
    }

    // "true ==" keeps the verifier from taking the predicates apart wherever they are proved.
    ghost predicate Valid()
      reads this
    {
      0 < segmentSize && 0 < bufferSize && true == Serves(Fan()) && true == AllFollow(followers, offsets, logs)
    }

    constructor (segmentSize: nat, bufferSize: nat)
      requires 0 < segmentSize && 0 < bufferSize
      ensures Valid() && Fan() == Fanout(map[], map[], {}, map[], {}, bufferSize) && followers == map[]
    {
      this.segmentSize, this.bufferSize := segmentSize, bufferSize;
      logs, offsets, followers, watchers, calls, stopped := map[], map[], map[], {}, map[], {};
    }

    /** Another transaction appends to a stream, or creates it. */
    method Grow(id: Uuid, log: Log)
      requires Valid() && ValidLog(log) && (id in logs ==> Extends(logs[id], log))
      modifies this`logs
      ensures Valid() && logs == old(logs)[id := log]
    {
      GrowServes(Fan(), id, log);
      GrowFollows(followers, offsets, logs, id, log);
      logs := logs[id := log];
    }

    // ---- Watch ---------------------------------------------------------------------

    /** register. */
    method Register(w: CallId)
      requires Valid() && w !in calls
      modifies this`watchers, this`calls
      ensures Valid() && watchers == old(watchers) + {w}
      ensures w in calls && calls == old(calls)[w := calls[w]]
      ensures calls[w].given == 0 && Buffered(calls[w]) == 0 && !calls[w].closed
      ensures |calls[w].segs| == |offsets| && AllEmpty(calls[w].segs)
    {
      var openings := Openings(offsets, logs);
      RegisterServes(Fan(), w, openings);
      calls := calls[w := Call(openings, |openings|, 0, false, None)];
      watchers := watchers + {w};
    }

    /** unregister: Watch returns because ctx was canceled or fn failed. */
    method Unregister(w: CallId)
      requires Valid()
      modifies this`watchers, this`stopped
      ensures Valid() && watchers == old(watchers) - {w} && stopped == old(stopped) + {w}
    {
      watchers := watchers - {w};
      stopped := stopped + {w};
    }

    /** One turn of Watch's loop: take the next segment, which PassOn filters for fn, or,
        once the channel is closed and empty, return the reason. Otherwise it blocks. */
    method Receive(w: CallId) returns (seg: Option<Segment>, err: Option<Reason>)
      requires Valid() && w in calls
      modifies this`calls
      ensures Valid()
      ensures var c := old(calls)[w];
        && seg == (if c.given < |c.segs| then Some(c.segs[c.given]) else None)
        && err == (if c.given < |c.segs| then None else c.err)
        && calls == if c.given < |c.segs| then old(calls)[w := c.(given := c.given + 1)] else old(calls)
      ensures seg.Some? ==> FaithfulIn(seg.value, logs)
    {
      seg, err := NextSegment(calls[w], w, Fan());
      if seg.Some? {
        calls := calls[w := calls[w].(given := calls[w].given + 1)];
      }
    }

    // ---- Delivery ----------------------------------------------------------------------

    /** A send to a watcher's channel, which must be open and have room. */
    method Send(w: CallId, seg: Segment)
      requires w in calls && !calls[w].closed && Buffered(calls[w]) < bufferSize
      modifies this`calls
      ensures calls == old(calls)[w := old(calls)[w].(segs := old(calls)[w].segs + [seg])]
    {
      calls := calls[w := calls[w].(segs := calls[w].segs + [seg])];
    }

    /** remove, whose close panics unless the channel is open. */
    method Remove(w: CallId, reason: Reason)
      requires w in calls && !calls[w].closed
      modifies this`watchers, this`calls
      ensures watchers == old(watchers) - {w} && calls == old(calls)[w := Ended(old(calls)[w], reason)]
    {
      watchers := watchers - {w};
      calls := calls[w := Ended(calls[w], reason)];
    }

    /** deliver's loop over the watchers, whose channels must be open. */
    method SendAll(seg: Segment)
      requires watchers <= calls.Keys && forall w :: w in watchers ==> !calls[w].closed
      modifies this`watchers, this`calls
      ensures calls == AllDelivered(old(calls), old(watchers), seg, bufferSize)
      ensures watchers == Kept(old(calls), old(watchers), bufferSize)
    {
      var left := watchers;
      while left != {}
        invariant left <= old(watchers)
        invariant calls == AllDelivered(old(calls), old(watchers) - left, seg, bufferSize)
        invariant watchers == left + Kept(old(calls), old(watchers) - left, bufferSize)
        decreases left
      {
        var w :| w in left;
        if Buffered(calls[w]) < bufferSize {
          Send(w, seg);
        } else {
          Remove(w, TooSlow);
        }
        left := left - {w};
      }
    }

    /** deliver: record the segment's end, and send it to every watcher that has room.
        The others are removed, as they would miss it. */
    method Deliver(seg: Segment)
      requires Serves(Fan()) && FaithfulIn(seg, logs)
      requires seg.streamId in offsets ==> offsets[seg.streamId] == seg.begin
      modifies this`offsets, this`watchers, this`calls
      ensures Serves(Fan()) && Fan() == SentTo(old(Fan()), seg)
    {
      DeliverServes(Fan(), seg);
      offsets := offsets[seg.streamId := seg.end];
      SendAll(seg);
    }

    // ---- Followers ---------------------------------------------------------------------

    /** watchStream begins an attempt to follow a stream. */
    method Follow(id: Uuid)
      requires Valid() && id in logs && id !in followers
      modifies this`followers
      ensures Valid() && followers == old(followers)[id := Follower(false, 0, None)]
    {
      followers := followers[id := Follower(false, 0, None)];
    }

    /** deliverStream's query for the stream's end, where it begins with an empty segment. */
    method LoadOpening(id: Uuid)
      requires Valid() && id in followers && !followers[id].begun && followers[id].loaded.None?
      modifies this`followers
      ensures Valid()
      ensures var end := logs[id].end;
        followers == old(followers)[id := Follower(false, old(followers)[id].next, Some(Segment(id, end, end, [])))]
    {
      var end := logs[id].end;
      SliceNone(logs[id].events, Every, end, end);
      followers := followers[id := followers[id].(loaded := Some(Segment(id, end, end, [])))];
    }

    /** deliverStream's query for the next segment, which it keeps if the stream has grown. */
    method LoadNext(id: Uuid) returns (exhausted: bool)
      requires Valid() && id in followers && followers[id].begun && followers[id].loaded.None?
      modifies this`followers
      ensures Valid()
      ensures id in followers && followers == old(followers)[id := old(followers)[id].(loaded := followers[id].loaded)]
      ensures var f := followers[id];
        && (f.loaded.Some? ==> f.next < f.loaded.value.end && |f.loaded.value.envelopes| <= segmentSize)
        && (exhausted ==> logs[id].end == if f.loaded.Some? then f.loaded.value.end else f.next)
        && (!exhausted ==> f.loaded.Some? && |f.loaded.value.envelopes| == segmentSize)
    {
      var r := LoadSegment(Some(logs[id]), id, Every, segmentSize, followers[id].next);
      exhausted := r.exhausted;
      if r.seg.end > r.seg.begin {
        followers := followers[id := followers[id].(loaded := Some(r.seg))];
      }
    }

    /** The delivery of what was loaded. Whatever happened since the query -- the stream has
        grown, calls have begun and ended, other streams were delivered or failed -- every
        registered call gets it, or is removed, and is missing nothing. */
    method DeliverLoaded(id: Uuid)
      requires Valid() && id in followers && followers[id].loaded.Some?
      modifies this`offsets, this`watchers, this`calls, this`followers
      ensures Valid()
      ensures var seg := old(followers)[id].loaded.value;
        && Fan() == SentTo(old(Fan()), seg) && SentByRoom(old(Fan()), Fan(), seg)
        && followers == old(followers)[id := Follower(true, seg.end, None)]
      ensures forall w :: w in old(watchers) && old(calls)[w].given == |old(calls)[w].segs| ==>
        && w in watchers && w in calls
        && calls[w] == old(calls)[w].(segs := old(calls)[w].segs + [old(followers)[id].loaded.value])
    {
      var seg := followers[id].loaded.value;
      RoomDecides(Fan(), seg);
      Deliver(seg);
      followers := followers[id := Follower(true, seg.end, None)];
    }

    /** fail's loop over the watchers, whose channels must be open. */
    method RemoveAll()
      requires watchers <= calls.Keys && forall w :: w in watchers ==> !calls[w].closed
      modifies this`watchers, this`calls
      ensures watchers == {} && calls == AllEnded(old(calls), old(watchers))
    {
      while watchers != {}
        invariant watchers <= old(watchers)
        invariant calls == AllEnded(old(calls), old(watchers) - watchers)
        decreases watchers
      {
        var w :| w in watchers;
        Remove(w, Unwatchable);
      }
    }

    /** fail: the attempt to follow a stream ends, and with it every call. */
    method Fail(id: Uuid)
      requires Valid() && id in followers
      modifies this`offsets, this`watchers, this`calls, this`followers
      ensures Valid()
      ensures offsets == old(offsets) - {id} && followers == old(followers) - {id}
      ensures watchers == {} && CutOff(old(calls), calls, old(watchers))
    {
      AllEndedCutOff(calls, watchers);
      FailServes(Fan(), id);
      FailFollows(followers, offsets, logs, id);
      offsets := offsets - {id};
      followers := followers - {id};
      RemoveAll();
      assert Fan() == old(Fan()).(offsets := offsets, watchers := {}, calls := calls);
    }
  }
}
