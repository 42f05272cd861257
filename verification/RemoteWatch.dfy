/** Watching a remote engine's streams: Server.WatchEvents splits the segments of many
    streams, and Remote.Watch checks that each stream is contiguous
    (internal/eventstream/source/server.go and remote.go). */
module RemoteWatching {
  import opened Stream
  import opened Wire
  import opened LocalSource

  /** The events of one stream, in order. */
  ghost function PassedOn(id: Uuid, segs: seq<Segment>): seq<Envelope> {
    if segs == [] then []
    else
      var init, last := segs[..|segs| - 1], segs[|segs| - 1];
      if last.streamId == id then PassedOn(id, init) + last.envelopes else PassedOn(id, init)
  }

  /** The two sequences of segments pick up, carry and leave a stream alike. */
  ghost predicate Alike(id: Uuid, xs: seq<Segment>, ys: seq<Segment>) {
    StartOf(id, xs) == StartOf(id, ys) && EndOf(id, xs) == EndOf(id, ys) && PassedOn(id, xs) == PassedOn(id, ys)
  }

  /** `ends` holds where the segments leave each stream. */
  ghost predicate Tracks(ends: map<Uuid, nat>, segs: seq<Segment>) {
    forall id :: EndOf(id, segs) == if id in ends then Some(ends[id]) else None
  }

  lemma {:induction false} TracksNext(ends: map<Uuid, nat>, segs: seq<Segment>, seg: Segment)
    requires Linked(segs) && Tracks(ends, segs) && seg.begin <= seg.end
    requires seg.streamId in ends ==> ends[seg.streamId] == seg.begin
    ensures Linked(segs + [seg]) && Tracks(ends[seg.streamId := seg.end], segs + [seg])
  {
  }

  /** Remote.Watch over whatever messages arrive: the segments passed to fn are the
      messages' own, and each stream's are contiguous. The watch fails at the first
      message that is unacceptable, or not where the last one of its stream ended. */
  method RemoteWatch(msgs: seq<Message>, types: Types) returns (delivered: seq<Segment>, ok: bool)
    ensures AreViews(delivered, msgs) && Linked(delivered)
    ensures forall k :: 0 <= k < |delivered| ==> Acceptable(msgs[k], types)
    ensures ok <==> |delivered| == |msgs|
    ensures !ok ==> var bad := msgs[|delivered|];
      || !Acceptable(bad, types)
      || (EndOf(bad.streamId, delivered).Some? && EndOf(bad.streamId, delivered) != Some(bad.begin))
  {
    delivered := [];
    var ends: map<Uuid, nat> := map[];
    for i := 0 to |msgs|
      // "true ==" keeps the verifier from taking the predicate apart at every turn.
      invariant |delivered| == i && AreViews(delivered, msgs) && Linked(delivered) && true == Tracks(ends, delivered)
      invariant forall k :: 0 <= k < i ==> Acceptable(msgs[k], types)
    {
      var seg := ParseSegment(msgs[i], types);
      if seg.None? || (seg.value.streamId in ends && seg.value.begin != ends[seg.value.streamId]) {
        return delivered, false;
      }
      TracksNext(ends, delivered, seg.value);
      delivered := delivered + [seg.value];
      ends := ends[seg.value.streamId := seg.value.end];
    }
    ok := true;
  }

  lemma {:induction false} OneMore(segs: seq<Segment>, seg: Segment, id: Uuid)
    ensures StartOf(id, segs + [seg]) ==
      if StartOf(id, segs).None? && seg.streamId == id then Some(seg.begin) else StartOf(id, segs)
    ensures EndOf(id, segs + [seg]) == if seg.streamId == id then Some(seg.end) else EndOf(id, segs)
    ensures PassedOn(id, segs + [seg]) ==
      if seg.streamId == id then PassedOn(id, segs) + seg.envelopes else PassedOn(id, segs)
  {
  }

  lemma {:induction false} PartsPassedOn(segs: seq<Segment>, parts: seq<Segment>, s: Uuid, id: Uuid)
    requires forall k :: 0 <= k < |parts| ==> parts[k].streamId == s
    ensures PassedOn(id, segs + parts) == if id == s then PassedOn(id, segs) + Concat(parts) else PassedOn(id, segs)
    decreases |parts|
  {
    if parts == [] {
      assert segs + parts == segs;
    } else {
      var init, last := parts[..|parts| - 1], parts[|parts| - 1];
      assert segs + parts == (segs + init) + [last];
      OneMore(segs + init, last, id);
      PartsPassedOn(segs, init, s, id);
      Associates(PassedOn(id, segs), Concat(init), last.envelopes);
    }
  }

  /** The parts of a segment continue its stream from where it begins to where they end. */
  lemma {:induction false} PartsContinue(segs: seq<Segment>, parts: seq<Segment>, s: Uuid, begin: nat, end: nat,
                                         id: Uuid)
    requires Linked(segs) && Chained(parts, begin, end) && parts != []
    requires forall k :: 0 <= k < |parts| ==> parts[k].streamId == s
    requires EndOf(s, segs).Some? ==> EndOf(s, segs).value == begin
    ensures Linked(segs + parts)
    ensures EndOf(s, segs + parts) == Some(end) && (id != s ==> EndOf(id, segs + parts) == EndOf(id, segs))
    ensures StartOf(id, segs + parts) == if StartOf(id, segs).None? && id == s then Some(begin) else StartOf(id, segs)
    decreases |parts|
  {
    var init, last := parts[..|parts| - 1], parts[|parts| - 1];
    assert segs + parts == (segs + init) + [last];
    if init == [] {
      assert segs + init == segs;
    } else {
      PartsContinue(segs, init, s, begin, last.begin, id);
    }
    OneMore(segs + init, last, id);
    LinkedNext(segs + init, last);
  }

  /** So sending the parts is as good as sending the segment. */
  lemma {:induction false} PartsAlike(sent: seq<Segment>, segs: seq<Segment>, seg: Segment, parts: seq<Segment>,
                                      id: Uuid)
    requires Linked(sent) && Linked(segs + [seg]) && Alike(id, sent, segs) && Alike(seg.streamId, sent, segs)
    requires Chained(parts, seg.begin, seg.end) && Concat(parts) == seg.envelopes && parts != []
    requires forall k :: 0 <= k < |parts| ==> parts[k].streamId == seg.streamId
    ensures Linked(sent + parts) && Alike(id, sent + parts, segs + [seg])
  {
    assert (segs + [seg])[..|segs|] == segs;
    OneMore(segs, seg, id);
    PartsContinue(sent, parts, seg.streamId, seg.begin, seg.end, id);
    PartsPassedOn(sent, parts, seg.streamId, id);
  }

  ghost predicate AllAlike(xs: seq<Segment>, ys: seq<Segment>) {
    forall id :: Alike(id, xs, ys)
  }

  lemma {:induction false} PartsAllAlike(sent: seq<Segment>, segs: seq<Segment>, seg: Segment, parts: seq<Segment>)
    requires Linked(sent) && Linked(segs + [seg]) && AllAlike(sent, segs)
    requires Chained(parts, seg.begin, seg.end) && Concat(parts) == seg.envelopes && parts != []
    requires forall k :: 0 <= k < |parts| ==> parts[k].streamId == seg.streamId
    ensures Linked(sent + parts) && AllAlike(sent + parts, segs + [seg])
  {
    PartsAlike(sent, segs, seg, parts, seg.streamId);
    forall id ensures Alike(id, sent + parts, segs + [seg]) {
      PartsAlike(sent, segs, seg, parts, id);
    }
  }

  lemma {:induction false} ViewsJoin(xs: seq<Message>, ys: seq<Message>)
    ensures Views(xs + ys) == Views(xs) + Views(ys)
  {
  }

  lemma {:induction false} PartsSent(msgs: seq<Message>, parts: seq<Message>, segs: seq<Segment>, seg: Segment)
    requires Linked(segs + [seg]) && Linked(Views(msgs)) && AllAlike(Views(msgs), segs)
    requires parts != [] && Chained(Views(parts), seg.begin, seg.end) && Concat(Views(parts)) == seg.envelopes
    requires forall k :: 0 <= k < |parts| ==> parts[k].streamId == seg.streamId
    ensures Linked(Views(msgs + parts)) && AllAlike(Views(msgs + parts), segs + [seg])
  {
    PartsAllAlike(Views(msgs), segs, seg, Views(parts));
    ViewsJoin(msgs, parts);
  }

  /** What is sent: acceptable messages that fit, which stand for the segments. */
  ghost predicate Sent(msgs: seq<Message>, segs: seq<Segment>, types: Types, maxBytes: nat) {
    && Linked(Views(msgs)) && AllAlike(Views(msgs), segs)
    && forall k :: 0 <= k < |msgs| ==> Acceptable(msgs[k], types) && Fits(msgs[k].items, maxBytes)
  }

  lemma {:induction false} SentNext(msgs: seq<Message>, parts: seq<Message>, segs: seq<Segment>, n: nat,
                                    types: Types, maxBytes: nat)
    requires n < |segs| && Linked(segs) && Sent(msgs, segs[..n], types, maxBytes)
    requires parts != [] && Chained(Views(parts), segs[n].begin, segs[n].end)
    requires Concat(Views(parts)) == segs[n].envelopes
    requires forall k :: 0 <= k < |parts| ==> Sendable(parts[k], segs[n].streamId, types, maxBytes)
    ensures Sent(msgs + parts, segs[..n + 1], types, maxBytes)
  {
    LinkedPrefix(segs, n + 1);
    assert segs[..n + 1] == segs[..n] + [segs[n]];
    PartsSent(msgs, parts, segs[..n], segs[n]);
  }

  /** Server.WatchEvents over the segments that the underlying Watch delivers. */
  method ServeWatch(segs: seq<Segment>, maxBytes: nat, types: Types) returns (msgs: seq<Message>)
    requires Linked(segs) && forall k :: 0 <= k < |segs| ==> WellFormed(segs[k], types)
    ensures Sent(msgs, segs, types, maxBytes)
  {
    msgs := [];
    for i := 0 to |segs|
      // "true ==" keeps the verifier from taking the predicate apart at every turn.
      invariant true == Sent(msgs, segs[..i], types, maxBytes)
    {
      var parts := SendSegment(segs[i], maxBytes, types);
      SentNext(msgs, parts, segs, i, types, maxBytes);
      msgs := msgs + parts;
    }
    assert segs[..|segs|] == segs;
  }

  /** Remote.Watch over Server.WatchEvents never rejects what the underlying Watch
      delivers, and passes on the same events of every stream. */
  method WatchOverWire(segs: seq<Segment>, maxBytes: nat, types: Types) returns (delivered: seq<Segment>, ok: bool)
    requires Linked(segs) && forall k :: 0 <= k < |segs| ==> WellFormed(segs[k], types)
    ensures ok && Linked(delivered) && AllAlike(delivered, segs)
  {
    var msgs := ServeWatch(segs, maxBytes, types);
    delivered, ok := RemoteWatch(msgs, types);
    ghost var n := |delivered|;
    if !ok {
      assert Views(msgs)[..n + 1][..n] == delivered;
      LinkedPrefix(Views(msgs), n + 1);
      assert false;
    }
    assert delivered == Views(msgs);
  }
}
