/** One event stream in the catalog: its feeds, their caches, and the consumers
    served from them, as one transition system (internal/eventstream/feed.go and
    the consuming half of catalog.go). Every step is one atomic access to shared
    state, so the steps of the log, the sources, the feeds' writers, the catalog
    and any number of consumers interleave arbitrarily. */
module Feeds {
  import opened Stream
  import opened EventCache

  type FeedId = nat
  type ConsumerId = nat

  // ---- State ---------------------------------------------------------------

  /** Progress of the source's Watch call through feed.Append. */
  datatype Writer =
    | Between(next: Option<nat>)  // where the call's next segment begins, if it has opened the stream
    | Checked(seg: Segment)       // Append found the feed open
    | Ready(seg: Segment)         // Append reset the cache, if it had to

  datatype Feed = Feed(
    types: Types,       // the types that the feed carries
    sourceEnd: nat,     // where the source's own view of the stream ends
    cache: CacheSegment,
    closed: bool,
    writer: Writer,
    released: bool)     // Catalog.Watch has returned

  datatype Reason = NotFound | Unwatched | Canceled | Rejected | OutOfRange | ReadFailed | TooShort

  /** Where a consumer stands in Catalog.Consume, feed.consume or feed.read. */
  datatype Pc =
    | Choosing                                     // about to load the current feed
    | AtTop(feed: FeedId)                          // about to load the cached segment
    | Loaded(feed: FeedId, seg: CacheSegment)      // about to act on that segment
    | Reading(feed: FeedId, from: nat, upTo: nat, behind: bool)
      // in Source.Read, begun at `from` when the source's stream ended at `upTo`
    | Waiting(feed: FeedId, seg: CacheSegment)     // blocked until the segment changes
    | Stopped(reason: Reason)

  datatype Consumer = Consumer(
    types: Types,
    begin: nat,
    cp: nat,
    confirmed: bool,
    pc: Pc,
    delivered: seq<Segment>)  // the segments that fn accepted

  datatype State = State(
    id: Uuid,
    capacity: nat,
    log: Log,
    feeds: map<FeedId, Feed>,
    available: set<FeedId>,     // AvailableFeeds
    current: Option<FeedId>,    // CurrentFeed
    closing: Option<FeedId>,    // the feed that remove has unlisted but not yet closed
    consumers: map<ConsumerId, Consumer>)

  function FeedOf(pc: Pc): Option<FeedId> {
    if pc.Choosing? || pc.Stopped? then None else Some(pc.feed)
  }

  // ---- Consumer moves ------------------------------------------------------

  datatype Move =
    | Choose
    | Load
    | Offer(accept: bool)
    | Enter
    | Wait
    | ReadDeliver(end: nat, accept: bool)
    | ReadEnd
    | ReadFail(reason: Reason)
    | Wake
    | SeeClosed
    | Cancel

  /** feed.consume reads from the source, rather than the cache, from here. */
  predicate MustRead(c: Consumer, seg: CacheSegment) {
    || RelationOf(seg, c.cp) == Before
    || (RelationOf(seg, c.cp) == After && c.cp > seg.end && !c.confirmed)
  }

  ghost predicate MoveEnabled(s: State, c: Consumer, m: Move) {
    && (FeedOf(c.pc).Some? ==> FeedOf(c.pc).value in s.feeds)
    && match m
       case Choose => c.pc.Choosing? && (s.current.Some? ==> s.current.value in s.feeds)
       case Load => c.pc.AtTop?
       case Offer(_) => c.pc.Loaded? && RelationOf(c.pc.seg, c.cp) == Inside
       case Enter => c.pc.Loaded? && MustRead(c, c.pc.seg)
       case Wait => c.pc.Loaded? && RelationOf(c.pc.seg, c.cp) == After && !MustRead(c, c.pc.seg)
       // The source's contract: contiguous segments of its own view of the stream, and
       // nil only from an offset within it, once everything is delivered that was there
       // when the read began.
       case ReadDeliver(end, _) => c.pc.Reading? && c.cp <= end <= s.feeds[c.pc.feed].sourceEnd <= s.log.end
       case ReadEnd => c.pc.Reading? && c.pc.upTo <= c.cp <= s.feeds[c.pc.feed].sourceEnd
       case ReadFail(reason) => c.pc.Reading? && (reason.OutOfRange? || reason.ReadFailed?)
       case Wake => c.pc.Waiting?
       case SeeClosed => c.pc.Waiting? && s.feeds[c.pc.feed].closed
       case Cancel => !c.pc.Stopped?
  }

  /** Hand [cp, end) to fn. */
  ghost function Give(s: State, c: Consumer, end: nat, envelopes: seq<Envelope>): Consumer {
    c.(cp := end, delivered := c.delivered + [Segment(s.id, c.cp, end, envelopes)])
  }

  /** feed.consume, once feed.read has returned nil. */
  function ReadReturned(c: Consumer): Consumer
    requires c.pc.Reading?
  {
    if c.pc.behind && c.cp == c.pc.from then c.(pc := Stopped(TooShort))
    else c.(confirmed := true, pc := AtTop(c.pc.feed))
  }

  ghost function Moved(s: State, c: Consumer, m: Move): Consumer
    requires MoveEnabled(s, c, m)
  {
    match m
    case Choose =>
      if s.current.None? then c.(pc := Stopped(NotFound))
      else if !SubTypes(c.types, s.feeds[s.current.value].types) then c.(pc := Stopped(Unwatched))
      else c.(confirmed := false, pc := AtTop(s.current.value))
    case Load => c.(pc := Loaded(c.pc.feed, s.feeds[c.pc.feed].cache))
    case Offer(accept) =>
      var seg := c.pc.seg;
      if !accept then c.(pc := Stopped(Rejected))
      else Give(s, c, seg.end, Slice(seg.events, c.types, c.cp, seg.end)).(confirmed := true, pc := AtTop(c.pc.feed))
    case Enter =>
      if s.feeds[c.pc.feed].closed then c.(pc := Choosing)
      else c.(pc := Reading(c.pc.feed, c.cp, s.feeds[c.pc.feed].sourceEnd, RelationOf(c.pc.seg, c.cp) == Before))
    case Wait => c.(pc := Waiting(c.pc.feed, c.pc.seg))
    case ReadDeliver(end, accept) =>
      if !accept then c.(pc := Stopped(Rejected))
      else
        var given := Give(s, c, end, Slice(s.log.events, c.types, c.cp, end));
        if end >= s.feeds[c.pc.feed].cache.begin then ReadReturned(given) else given
    case ReadEnd =>
      if s.feeds[c.pc.feed].closed then c.(pc := Choosing) else ReadReturned(c)
    case ReadFail(reason) =>
      if s.feeds[c.pc.feed].closed then c.(pc := Choosing) else c.(pc := Stopped(reason))
    case Wake => c.(pc := AtTop(c.pc.feed))
    case SeeClosed => c.(pc := Choosing)
    case Cancel => c.(pc := Stopped(Canceled))
  }

  // ---- Steps of the whole system --------------------------------------------

  datatype Step =
    | Grow(log: Log)                                   // events are appended to the stream
    | SourceSees(feed: FeedId, end: nat)               // a source's view of it catches up
    | Rewatch(feed: FeedId)                            // Source.Watch is called again
    | Deliver(feed: FeedId, begin: nat, end: nat)      // Source.Watch delivers; feed.Append begins
    | Prepare(feed: FeedId)                            // feed.Append resets the cache if it must
    | Store(feed: FeedId)                              // feed.Append appends to the cache
    | Add(feed: FeedId, types: Types, begin: nat, sourceEnd: nat) // Catalog.add
    | Unlist(feed: FeedId, next: Option<FeedId>)       // Catalog.remove, up to CurrentFeed.Store
    | Close(feed: FeedId)                              // Catalog.remove, feed.Close
    | Release(feed: FeedId)                            // feed.Wait has returned, so Catalog.Watch returns
    | Join(consumer: ConsumerId, types: Types, begin: nat) // Catalog.Consume is called
    | Act(consumer: ConsumerId, move: Move)

  ghost predicate Enabled(s: State, step: Step) {
    match step
    case Grow(log) => ValidLog(log) && Extends(s.log, log)
    case SourceSees(f, end) => f in s.feeds && s.feeds[f].sourceEnd <= end <= s.log.end
    case Rewatch(f) => f in s.available * s.feeds.Keys && s.feeds[f].writer.Between?
    case Deliver(f, begin, end) =>
      && f in s.available * s.feeds.Keys && s.feeds[f].writer.Between?
      && begin <= end <= s.feeds[f].sourceEnd
      && (s.feeds[f].writer.next.Some? ==> begin == s.feeds[f].writer.next.value)
    case Prepare(f) => f in s.feeds && s.feeds[f].writer.Checked?
    case Store(f) => f in s.feeds && s.feeds[f].writer.Ready?
    case Add(f, _, begin, sourceEnd) =>
      && s.closing.None? && f !in s.feeds && begin <= sourceEnd <= s.log.end
      && (s.available == {} ==> s.feeds == map[])  // a catalogStream that has emptied is discarded
    case Unlist(f, next) =>
      && s.closing.None? && f in s.available * s.feeds.Keys && s.feeds[f].writer.Between?
      && if s.current == Some(f)
         then (if next.None? then s.available == {f} else next.value in s.available - {f})
         else next == s.current
    case Close(f) => s.closing == Some(f) && f in s.feeds
    case Release(f) =>
      && f in s.feeds && s.feeds[f].closed
      && forall c :: c in s.consumers ==> !(s.consumers[c].pc.Reading? && s.consumers[c].pc.feed == f)
    case Join(c, _, _) => c !in s.consumers
    case Act(c, move) => c in s.consumers && MoveEnabled(s, s.consumers[c], move)
  }

  ghost function WithFeed(s: State, f: FeedId, feed: Feed): State {
    s.(feeds := s.feeds[f := feed])
  }

  ghost function Apply(s: State, step: Step): State
    requires 0 < s.capacity && Enabled(s, step)
  {
    match step
    case Grow(log) => s.(log := log)
    case SourceSees(f, end) => WithFeed(s, f, s.feeds[f].(sourceEnd := end))
    case Rewatch(f) => WithFeed(s, f, s.feeds[f].(writer := Between(None)))
    case Deliver(f, begin, end) =>
      var feed := s.feeds[f];
      WithFeed(s, f, feed.(writer :=
        if feed.closed then Between(Some(end))
        else Checked(Segment(s.id, begin, end, Slice(s.log.events, feed.types, begin, end)))))
    case Prepare(f) =>
      var feed := s.feeds[f];
      var begin := feed.writer.seg.begin;
      WithFeed(s, f, feed.(
        cache := if begin != feed.cache.end then CacheSegment(begin, begin, []) else feed.cache,
        writer := Ready(feed.writer.seg)))
    case Store(f) =>
      var feed := s.feeds[f];
      var seg := feed.writer.seg;
      WithFeed(s, f, feed.(
        cache := Appended(s.capacity, feed.cache, seg.end, seg.envelopes),
        writer := Between(Some(seg.end))))
    case Add(f, types, begin, sourceEnd) =>
      var added := WithFeed(s, f, Feed(types, sourceEnd, CacheSegment(begin, begin, []), false, Between(None), false));
      added.(available := s.available + {f}, current := if s.available == {} then Some(f) else s.current)
    case Unlist(f, next) => s.(available := s.available - {f}, current := next, closing := Some(f))
    case Close(f) => WithFeed(s, f, s.feeds[f].(closed := true)).(closing := None)
    case Release(f) => WithFeed(s, f, s.feeds[f].(released := true))
    case Join(c, types, begin) =>
      s.(consumers := s.consumers[c := Consumer(types, begin, begin, false, Choosing, [])])
    case Act(c, move) => s.(consumers := s.consumers[c := Moved(s, s.consumers[c], move)])
  }

  ghost predicate Init(s: State) {
    0 < s.capacity && ValidLog(s.log) && s.feeds == map[] && s.available == {}
    && s.current.None? && s.closing.None? && s.consumers == map[]
  }

  // ---- Invariant -------------------------------------------------------------

  ghost predicate SnapshotOk(log: Log, feed: Feed, seg: CacheSegment) {
    && seg.begin <= seg.end <= feed.sourceEnd <= log.end
    && seg.events == Slice(log.events, feed.types, seg.begin, seg.end)
  }

  ghost predicate FeedOk(log: Log, capacity: nat, feed: Feed) {
    && SnapshotOk(log, feed, feed.cache)
    && |feed.cache.events| <= capacity
    && (feed.released ==> feed.closed)
    && (!feed.writer.Between? ==>
          && Faithful(feed.writer.seg, log, feed.types) && feed.writer.seg.end <= feed.sourceEnd)
    && (feed.writer.Ready? ==> feed.writer.seg.begin == feed.cache.end)
  }

  /** The catalog's listing: the current feed is available, so open; every feed
      that is not available is closed or about to be. */
  ghost predicate CatalogOk(s: State) {
    && s.available <= s.feeds.Keys
    && (s.current.None? <==> s.available == {})
    && (s.current.Some? ==> s.current.value in s.available)
    && (s.closing.Some? ==> s.closing.value in s.feeds && s.closing.value !in s.available)
    && (forall f :: f in s.feeds ==> (s.feeds[f].closed <==> f !in s.available && s.closing != Some(f)))
    && (forall f :: f in s.feeds && f !in s.available ==> s.feeds[f].writer.Between?)
  }

  ghost predicate SharedOk(s: State) {
    && 0 < s.capacity
    && ValidLog(s.log)
    && (forall f :: f in s.feeds ==> FeedOk(s.log, s.capacity, s.feeds[f]))
    && CatalogOk(s)
  }

  /** What the consumer has been given is exactly the wanted part of the log, segment by
      segment. */
  ghost predicate Exact(s: State, c: Consumer) {
    && Chained(c.delivered, c.begin, c.cp)
    && forall k :: 0 <= k < |c.delivered| ==> GivenOk(s, c, c.delivered[k])
  }

  ghost predicate GivenOk(s: State, c: Consumer, seg: Segment) {
    seg.streamId == s.id && Faithful(seg, s.log, c.types)
  }

  ghost predicate ConsumerOk(s: State, c: Consumer) {
    && Exact(s, c)
    && (c.cp <= s.log.end || c.cp == c.begin)
    && (FeedOf(c.pc).Some? ==>
          && c.pc.feed in s.feeds
          && SubTypes(c.types, s.feeds[c.pc.feed].types)
          && (c.confirmed ==> c.cp <= s.feeds[c.pc.feed].sourceEnd))
    && (c.pc.Loaded? ==> SnapshotOk(s.log, s.feeds[c.pc.feed], c.pc.seg))
    && (c.pc.Reading? ==>
          && !s.feeds[c.pc.feed].released
          && c.pc.from <= c.cp
          && c.pc.upTo <= s.feeds[c.pc.feed].sourceEnd
          && (c.pc.behind ==> c.pc.from < c.pc.upTo)
          && (!c.pc.behind ==> !c.confirmed)
          && (c.pc.from < c.cp ==> c.cp <= s.feeds[c.pc.feed].sourceEnd))
    && (c.pc.Waiting? ==> c.pc.seg.end <= c.cp <= s.feeds[c.pc.feed].sourceEnd)
  }

  ghost predicate Inv(s: State) {
    SharedOk(s) && forall c :: c in s.consumers ==> ConsumerOk(s, s.consumers[c])
  }

  // ---- Proof -----------------------------------------------------------------

  /** How shared state may change under a consumer's feet. */
  ghost predicate Evolves(s: State, t: State) {
    && s.id == t.id
    && ValidLog(t.log) && Extends(s.log, t.log)
    && forall f :: f in s.feeds ==> f in t.feeds && FeedEvolved(s.feeds[f], t.feeds[f], t.log)
  }

  predicate FeedEvolved(a: Feed, b: Feed, log: Log) {
    && b.types == a.types
    && a.sourceEnd <= b.sourceEnd <= log.end
    && (a.closed ==> b.closed)
    && (a.released ==> b.released)
  }

  lemma {:induction false} SnapshotEvolves(s: State, t: State, f: FeedId, seg: CacheSegment)
    requires Evolves(s, t) && f in s.feeds && SnapshotOk(s.log, s.feeds[f], seg)
    ensures SnapshotOk(t.log, t.feeds[f], seg)
  {
    SliceExtends(s.log, t.log, s.feeds[f].types, seg.begin, seg.end);
  }

  lemma {:induction false} ExactEvolves(s: State, t: State, c: Consumer)
    requires s.id == t.id && Extends(s.log, t.log) && Exact(s, c)
    ensures Exact(t, c)
  {
    forall k | 0 <= k < |c.delivered| ensures GivenOk(t, c, c.delivered[k]) {
      assert GivenOk(s, c, c.delivered[k]);
      SliceExtends(s.log, t.log, c.types, c.delivered[k].begin, c.delivered[k].end);
    }
  }

  lemma {:induction false} ConsumerEvolves(s: State, t: State, c: Consumer)
    requires Evolves(s, t) && ConsumerOk(s, c)
    requires c.pc.Reading? ==> c.pc.feed in t.feeds && !t.feeds[c.pc.feed].released
    ensures ConsumerOk(t, c)
  {
    ExactEvolves(s, t, c);
    if c.pc.Loaded? {
      SnapshotEvolves(s, t, c.pc.feed, c.pc.seg);
    }
  }

  /** Accepting the next slice of the log. */
  lemma {:induction false} GiveKeeps(s: State, c: Consumer, end: nat)
    requires Exact(s, c) && c.cp <= end <= s.log.end
    ensures Exact(s, Give(s, c, end, Slice(s.log.events, c.types, c.cp, end)))
  {
    var seg := Segment(s.id, c.cp, end, Slice(s.log.events, c.types, c.cp, end));
    ChainedAppend(c.delivered, seg, c.begin);
    forall k | 0 <= k < |c.delivered + [seg]| ensures GivenOk(s, c, (c.delivered + [seg])[k]) {
      if k < |c.delivered| {
        assert GivenOk(s, c, c.delivered[k]);
      }
    }
  }

  lemma {:induction false} OfferKeeps(s: State, c: Consumer, accept: bool)
    requires ConsumerOk(s, c) && MoveEnabled(s, c, Offer(accept))
    ensures ConsumerOk(s, Moved(s, c, Offer(accept)))
  {
    var seg, feed := c.pc.seg, s.feeds[c.pc.feed];
    SliceSlice(s.log.events, feed.types, seg.begin, seg.end, c.types, c.cp, seg.end);
    GiveKeeps(s, c, seg.end);
  }

  /** A read that has delivered up to `end` goes on, or returns because it has caught up. */
  lemma {:induction false} ReadGoesOn(s: State, c: Consumer, given: Consumer)
    requires ConsumerOk(s, c) && c.pc.Reading? && Exact(s, given)
    requires given == c.(cp := given.cp, delivered := given.delivered)
    requires c.cp <= given.cp <= s.feeds[c.pc.feed].sourceEnd <= s.log.end
    ensures ConsumerOk(s, given) && ConsumerOk(s, ReadReturned(given))
  {
  }

  lemma {:induction false} StoppedKeeps(s: State, c: Consumer, d: Consumer)
    requires ConsumerOk(s, c) && d == c.(pc := d.pc) && d.pc.Stopped?
    ensures ConsumerOk(s, d)
  {
    assert forall k :: 0 <= k < |c.delivered| ==> GivenOk(s, c, c.delivered[k]) == GivenOk(s, d, d.delivered[k]);
  }

  lemma {:induction false} ReadDeliverKeeps(s: State, c: Consumer, end: nat, accept: bool)
    requires ConsumerOk(s, c) && MoveEnabled(s, c, ReadDeliver(end, accept))
    ensures ConsumerOk(s, Moved(s, c, ReadDeliver(end, accept)))
  {
    var d := Moved(s, c, ReadDeliver(end, accept));
    if accept {
      var given := Give(s, c, end, Slice(s.log.events, c.types, c.cp, end));
      GiveKeeps(s, c, end);
      ReadGoesOn(s, c, given);
      assert d == if end >= s.feeds[c.pc.feed].cache.begin then ReadReturned(given) else given;
    } else {
      StoppedKeeps(s, c, d);
    }
  }

  /** Moves that deliver nothing. */
  lemma {:induction false} SilentMoveKeeps(s: State, c: Consumer, m: Move)
    requires ConsumerOk(s, c) && MoveEnabled(s, c, m)
    requires FeedOf(c.pc).Some? ==> FeedOk(s.log, s.capacity, s.feeds[c.pc.feed])
    requires !m.Offer? && !m.ReadDeliver?
    ensures ConsumerOk(s, Moved(s, c, m))
  {
    SilentMoveExact(s, c, m);
    if m.Enter? || m.ReadEnd? || m.ReadFail? {
      ReadMoveKeeps(s, c, m);
    }
  }

  lemma {:induction false} SilentMoveExact(s: State, c: Consumer, m: Move)
    requires Exact(s, c) && MoveEnabled(s, c, m) && !m.Offer? && !m.ReadDeliver?
    ensures Exact(s, Moved(s, c, m))
  {
    var d := Moved(s, c, m);
    assert d == c.(confirmed := d.confirmed, pc := d.pc);
    forall k | 0 <= k < |d.delivered| ensures GivenOk(s, d, d.delivered[k]) {
      assert GivenOk(s, c, c.delivered[k]);
    }
  }

  lemma {:induction false} ReadMoveKeeps(s: State, c: Consumer, m: Move)
    requires ConsumerOk(s, c) && MoveEnabled(s, c, m) && Exact(s, Moved(s, c, m))
    requires FeedOf(c.pc).Some? ==> FeedOk(s.log, s.capacity, s.feeds[c.pc.feed])
    requires m.Enter? || m.ReadEnd? || m.ReadFail?
    ensures ConsumerOk(s, Moved(s, c, m))
  {
  }

  lemma {:induction false} MoveKeeps(s: State, c: Consumer, m: Move)
    requires SharedOk(s) && ConsumerOk(s, c) && MoveEnabled(s, c, m)
    ensures ConsumerOk(s, Moved(s, c, m))
  {
    if m.Offer? {
      OfferKeeps(s, c, m.accept);
    } else if m.ReadDeliver? {
      ReadDeliverKeeps(s, c, m.end, m.accept);
    } else {
      SilentMoveKeeps(s, c, m);
    }
  }

  lemma {:induction false} FeedEvolves(s: State, t: State, f: FeedId)
    requires Evolves(s, t) && f in s.feeds && FeedOk(s.log, s.capacity, s.feeds[f])
    requires t.feeds[f] == s.feeds[f] || t.feeds[f] == s.feeds[f].(sourceEnd := t.feeds[f].sourceEnd)
    ensures FeedOk(t.log, s.capacity, t.feeds[f])
  {
    SnapshotEvolves(s, t, f, s.feeds[f].cache);
    var w := s.feeds[f].writer;
    if !w.Between? {
      SliceExtends(s.log, t.log, s.feeds[f].types, w.seg.begin, w.seg.end);
    }
  }

  /** A step of one feed's writer leaves that feed's cache faithful to the log.
      In particular the cache always ends where the stored segment begins, so
      Cache.Append never panics. */
  lemma {:induction false} WriterKeeps(s: State, step: Step)
    requires SharedOk(s) && Enabled(s, step)
    requires step.Rewatch? || step.Deliver? || step.Prepare? || step.Store?
    ensures FeedOk(s.log, s.capacity, Apply(s, step).feeds[step.feed])
    ensures step.Store? ==> s.feeds[step.feed].writer.seg.begin == s.feeds[step.feed].cache.end
  {
    var feed := s.feeds[step.feed];
    if step.Prepare? {
      SliceNone(s.log.events, feed.types, feed.writer.seg.begin, feed.writer.seg.begin);
    } else if step.Store? {
      AppendedIsSlice(s.capacity, feed.cache, s.log.events, feed.types, feed.writer.seg.end);
    }
  }

  lemma {:induction false} StepEvolvesFeed(s: State, step: Step, f: FeedId)
    requires 0 < s.capacity && Enabled(s, step) && f in s.feeds && s.feeds[f].sourceEnd <= s.log.end
    ensures f in Apply(s, step).feeds
    ensures FeedEvolved(s.feeds[f], Apply(s, step).feeds[f], Apply(s, step).log)
  {
  }

  lemma {:induction false} StepEvolves(s: State, step: Step)
    requires SharedOk(s) && Enabled(s, step)
    ensures Evolves(s, Apply(s, step))
  {
    var t := Apply(s, step);
    forall f | f in s.feeds ensures f in t.feeds && FeedEvolved(s.feeds[f], t.feeds[f], t.log) {
      StepEvolvesFeed(s, step, f);
    }
  }

  lemma {:induction false} ListingKeeps(s: State, step: Step)
    requires CatalogOk(s) && 0 < s.capacity && Enabled(s, step)
    requires step.Add? || step.Unlist? || step.Close?
    ensures CatalogOk(Apply(s, step))
  {
    if step.Unlist? && s.current != Some(step.feed) {
      assert s.current.value in s.available - {step.feed};
    }
  }

  lemma {:induction false} StepKeepsCatalog(s: State, step: Step)
    requires CatalogOk(s) && 0 < s.capacity && Enabled(s, step)
    ensures CatalogOk(Apply(s, step))
  {
    if step.Add? || step.Unlist? || step.Close? {
      ListingKeeps(s, step);
    }
  }

  lemma {:induction false} StepKeepsFeed(s: State, step: Step, f: FeedId)
    requires SharedOk(s) && Enabled(s, step) && f in Apply(s, step).feeds
    ensures var t := Apply(s, step); FeedOk(t.log, t.capacity, t.feeds[f])
  {
    var t := Apply(s, step);
    if (step.Rewatch? || step.Deliver? || step.Prepare? || step.Store?) && step.feed == f {
      WriterKeeps(s, step);
    } else if step.Add? && step.feed == f {
      SliceNone(s.log.events, step.types, step.begin, step.begin);
    } else if step.Grow? || step.SourceSees? {
      StepEvolves(s, step);
      FeedEvolves(s, t, f);
    }
  }

  lemma {:induction false} SharedKeeps(s: State, step: Step)
    requires SharedOk(s) && Enabled(s, step)
    ensures SharedOk(Apply(s, step)) && Evolves(s, Apply(s, step))
  {
    StepEvolves(s, step);
    StepKeepsCatalog(s, step);
    forall f | f in Apply(s, step).feeds
      ensures FeedOk(Apply(s, step).log, Apply(s, step).capacity, Apply(s, step).feeds[f])
    {
      StepKeepsFeed(s, step, f);
    }
  }

  lemma {:induction false} ActKeepsConsumer(s: State, mover: ConsumerId, move: Move, c: ConsumerId)
    requires Inv(s) && Enabled(s, Act(mover, move)) && c in s.consumers
    ensures var t := Apply(s, Act(mover, move)); ConsumerOk(t, t.consumers[c])
  {
    if c == mover {
      MoveKeeps(s, s.consumers[c], move);
    }
    var t := Apply(s, Act(mover, move));
    ConsumerEvolves(s, t, t.consumers[c]);
  }

  lemma {:induction false} StepKeepsConsumer(s: State, step: Step, c: ConsumerId)
    requires 0 < s.capacity && Enabled(s, step) && Evolves(s, Apply(s, step))
    requires !step.Act? && c in Apply(s, step).consumers
    requires c in s.consumers ==> ConsumerOk(s, s.consumers[c])
    requires forall f :: f in s.feeds ==> (s.feeds[f].released ==> s.feeds[f].closed)
    ensures ConsumerOk(Apply(s, step), Apply(s, step).consumers[c])
  {
    var t := Apply(s, step);
    if step.Join? && step.consumer == c {
      SliceNone(t.log.events, step.types, step.begin, step.begin);
    } else {
      assert t.consumers[c] == s.consumers[c];
      ConsumerEvolves(s, t, s.consumers[c]);
    }
  }

  lemma {:induction false} StepKeeps(s: State, step: Step)
    requires Inv(s) && Enabled(s, step)
    ensures Inv(Apply(s, step)) && Evolves(s, Apply(s, step))
  {
    SharedKeeps(s, step);
    var t := Apply(s, step);
    forall c | c in t.consumers ensures ConsumerOk(t, t.consumers[c]) {
      if step.Act? {
        ActKeepsConsumer(s, step.consumer, step.move, c);
      } else {
        StepKeepsConsumer(s, step, c);
      }
    }
  }

  // ---- Runs ------------------------------------------------------------------

  ghost predicate Run(s: State, steps: seq<Step>)
    decreases |steps|, 0
  {
    steps == [] || (Run(s, steps[..|steps| - 1]) && 0 < s.capacity &&
                    0 < StateAfter(s, steps[..|steps| - 1]).capacity &&
                    Enabled(StateAfter(s, steps[..|steps| - 1]), steps[|steps| - 1]))
  }

  ghost function StateAfter(s: State, steps: seq<Step>): State
    requires Run(s, steps)
    decreases |steps|, 1
  {
    if steps == [] then s else Apply(StateAfter(s, steps[..|steps| - 1]), steps[|steps| - 1])
  }

  lemma {:induction false} RunKeeps(s: State, steps: seq<Step>)
    requires Inv(s) && Run(s, steps)
    ensures Inv(StateAfter(s, steps)) && Evolves(s, StateAfter(s, steps))
  {
    if steps != [] {
      var init := steps[..|steps| - 1];
      RunKeeps(s, init);
      StepKeeps(StateAfter(s, init), steps[|steps| - 1]);
    }
  }

  // ---- Theorems ----------------------------------------------------------------

  /** Whatever interleaving of log growth, cache appends, evictions and resets,
      historical reads, closures and takeovers has happened, every consumer has
      been given contiguous segments from its begin offset, whose events are
      exactly the log's events of its types up to its checkpoint. A consumer that
      waits does so within its source's stream, with nothing left in the cached
      segment that it waits on. */
  lemma {:induction false} ConsumedExactly(s: State, steps: seq<Step>, c: ConsumerId)
    requires Init(s) && Run(s, steps) && c in StateAfter(s, steps).consumers
    ensures var t := StateAfter(s, steps); var consumer := t.consumers[c];
      && Chained(consumer.delivered, consumer.begin, consumer.cp)
      && Concat(consumer.delivered) == Slice(t.log.events, consumer.types, consumer.begin, consumer.cp)
      && (consumer.pc.Waiting? ==>
            && consumer.pc.feed in t.feeds
            && consumer.pc.seg.end <= consumer.cp <= t.feeds[consumer.pc.feed].sourceEnd)
  {
    RunKeeps(s, steps);
    var t := StateAfter(s, steps);
    ExactIsSlice(t, t.consumers[c]);
  }

  lemma {:induction false} ExactIsSlice(s: State, c: Consumer)
    requires ValidLog(s.log) && Exact(s, c)
    ensures Concat(c.delivered) == Slice(s.log.events, c.types, c.begin, c.cp)
  {
    forall k | 0 <= k < |c.delivered| ensures Faithful(c.delivered[k], s.log, c.types) {
      assert GivenOk(s, c, c.delivered[k]);
    }
    ChainIsSlice(c.delivered, s.log, c.types, c.begin, c.cp);
  }

  /** Every read delivers only segments that advance, as those of Local and Memory do. */
  ghost predicate Advancing(s: State, steps: seq<Step>)
    requires Run(s, steps)
  {
    steps == [] ||
    var init, last := steps[..|steps| - 1], steps[|steps| - 1];
    && Advancing(s, init)
    && (last.Act? && last.move.ReadDeliver? ==> StateAfter(s, init).consumers[last.consumer].cp < last.move.end)
  }

  ghost predicate NoneTooShort(s: State) {
    forall c :: c in s.consumers ==> s.consumers[c].pc != Stopped(TooShort)
  }

  lemma {:induction false} NotTooShort(s: State, c: Consumer, m: Move)
    requires ConsumerOk(s, c) && MoveEnabled(s, c, m) && c.pc != Stopped(TooShort)
    requires m.ReadDeliver? ==> c.cp < m.end
    ensures Moved(s, c, m).pc != Stopped(TooShort)
  {
  }

  lemma {:induction false} StepNotTooShort(s: State, step: Step)
    requires Inv(s) && Enabled(s, step) && NoneTooShort(s)
    requires step.Act? && step.move.ReadDeliver? ==> s.consumers[step.consumer].cp < step.move.end
    ensures NoneTooShort(Apply(s, step))
  {
    if step.Act? {
      NotTooShort(s, s.consumers[step.consumer], step.move);
    }
  }

  /** A source whose segments advance is never found to end before its cached segment:
      a read that began before the segment can not return empty-handed, because the
      source's stream reached at least that far when the read began. */
  lemma {:induction false} NeverTooShort(s: State, steps: seq<Step>)
    requires Init(s) && Run(s, steps) && Advancing(s, steps)
    ensures NoneTooShort(StateAfter(s, steps))
  {
    if steps != [] {
      var init := steps[..|steps| - 1];
      NeverTooShort(s, init);
      RunKeeps(s, init);
      StepNotTooShort(StateAfter(s, init), steps[|steps| - 1]);
    }
  }

  /** In every reachable state a cache is a faithful, bounded part of the log. */
  lemma {:induction false} CachesFaithful(s: State, steps: seq<Step>, f: FeedId)
    requires Init(s) && Run(s, steps) && f in StateAfter(s, steps).feeds
    ensures var t := StateAfter(s, steps); var feed := t.feeds[f];
      && |feed.cache.events| <= t.capacity
      && feed.cache.end <= feed.sourceEnd <= t.log.end
      && feed.cache.events == Slice(t.log.events, feed.types, feed.cache.begin, feed.cache.end)
  {
    RunKeeps(s, steps);
  }

  /** The current feed is always available and open. Once a feed is closed it is
      never current again, so a consumer that saw the closure never reloads it. */
  lemma {:induction false} ClosedNeverCurrent(s: State, steps: seq<Step>, f: FeedId)
    requires Inv(s) && f in s.feeds && s.feeds[f].closed && Run(s, steps)
    ensures var t := StateAfter(s, steps);
      && f in t.feeds && t.feeds[f].closed && f !in t.available && t.current != Some(f)
      && (t.current.Some? ==> t.current.value in t.available * t.feeds.Keys && !t.feeds[t.current.value].closed)
  {
    RunKeeps(s, steps);
  }

  /** Once Catalog.Watch has returned, no call to the feed's source is running,
      and none ever starts. */
  lemma {:induction false} ReleasedStaysIdle(s: State, steps: seq<Step>, f: FeedId)
    requires Inv(s) && f in s.feeds && s.feeds[f].released && Run(s, steps)
    ensures var t := StateAfter(s, steps);
      && f in t.feeds && t.feeds[f].writer.Between?
      && !Enabled(t, Rewatch(f)) && (forall begin, end :: !Enabled(t, Deliver(f, begin, end)))
      && forall c :: c in t.consumers ==> !(t.consumers[c].pc.Reading? && t.consumers[c].pc.feed == f)
  {
    RunKeeps(s, steps);
  }

  predicate ReadsFrom(c: Consumer, f: FeedId) {
    c.pc.Reading? && c.pc.feed == f
  }

  lemma {:induction false} MoveBeginsNoRead(s: State, c: Consumer, m: Move, f: FeedId)
    requires MoveEnabled(s, c, m) && f in s.feeds && s.feeds[f].closed && ReadsFrom(Moved(s, c, m), f)
    ensures ReadsFrom(c, f)
  {
  }

  lemma {:induction false} StepBeginsNoRead(s: State, step: Step, f: FeedId, c: ConsumerId)
    requires 0 < s.capacity && Enabled(s, step) && f in s.feeds && s.feeds[f].closed
    requires c in Apply(s, step).consumers && ReadsFrom(Apply(s, step).consumers[c], f)
    ensures c in s.consumers && ReadsFrom(s.consumers[c], f)
  {
    if step.Act? && step.consumer == c {
      MoveBeginsNoRead(s, s.consumers[c], step.move, f);
    }
  }

  /** Once a feed is closed no other read from its source begins: whoever reads from
      it later was already doing so. */
  lemma {:induction false} ClosedBeginsNoRead(s: State, steps: seq<Step>, f: FeedId, c: ConsumerId)
    requires Inv(s) && f in s.feeds && s.feeds[f].closed && Run(s, steps)
    requires c in StateAfter(s, steps).consumers && ReadsFrom(StateAfter(s, steps).consumers[c], f)
    ensures c in s.consumers && ReadsFrom(s.consumers[c], f)
  {
    if steps != [] {
      var init := steps[..|steps| - 1];
      RunKeeps(s, init);
      StepBeginsNoRead(StateAfter(s, init), steps[|steps| - 1], f, c);
      ClosedBeginsNoRead(s, init, f, c);
    }
  }

  predicate OnlyGiven(c: Consumer, d: Consumer) {
    d.types == c.types && d.begin == c.begin && c.cp <= d.cp && c.delivered <= d.delivered
  }

  lemma {:induction false} MoveOnlyGives(s: State, c: Consumer, m: Move)
    requires MoveEnabled(s, c, m)
    ensures OnlyGiven(c, Moved(s, c, m))
  {
  }

  lemma {:induction false} StepOnlyGives(s: State, step: Step, c: ConsumerId)
    requires 0 < s.capacity && Enabled(s, step) && c in s.consumers
    ensures c in Apply(s, step).consumers && OnlyGiven(s.consumers[c], Apply(s, step).consumers[c])
  {
    if step.Act? && step.consumer == c {
      MoveOnlyGives(s, s.consumers[c], step.move);
    }
  }

  /** A call to Consume is served from the offset and with the types that it asked for:
      it is given ever more, and nothing that it was given is given again. */
  lemma {:induction false} ServedAsAsked(s: State, c: ConsumerId, types: Types, begin: nat, steps: seq<Step>)
    requires 0 < s.capacity && Enabled(s, Join(c, types, begin)) && Run(Apply(s, Join(c, types, begin)), steps)
    ensures var t := StateAfter(Apply(s, Join(c, types, begin)), steps);
      && c in t.consumers && t.consumers[c].types == types
      && t.consumers[c].begin == begin <= t.consumers[c].cp
    ensures forall k :: 0 <= k <= |steps| && Run(Apply(s, Join(c, types, begin)), steps[..k]) ==>
      var u := StateAfter(Apply(s, Join(c, types, begin)), steps[..k]);
      c in u.consumers && OnlyGiven(u.consumers[c], StateAfter(Apply(s, Join(c, types, begin)), steps).consumers[c])
  {
    var joined := Apply(s, Join(c, types, begin));
    if steps == [] {
      assert forall k :: 0 <= k <= |steps| ==> steps[..k] == steps;
    } else {
      var init := steps[..|steps| - 1];
      ServedAsAsked(s, c, types, begin, init);
      StepOnlyGives(StateAfter(joined, init), steps[|steps| - 1], c);
      forall k | 0 <= k <= |steps| && Run(joined, steps[..k])
        ensures
          var u := StateAfter(joined, steps[..k]);
          c in u.consumers && OnlyGiven(u.consumers[c], StateAfter(joined, steps).consumers[c])
      {
        assert if k == |steps| then steps[..k] == steps else steps[..k] == init[..k];
      }
    }
  }

  function LastOf(n: nat, events: seq<Envelope>): seq<Envelope> {
    if |events| <= n then events else events[|events| - n..]
  }

  /** What feed.Append leaves in the cache: everything that was there and the new
      segment, as far as there is room and from the newest back. Only a segment that
      does not continue the cache discards what was there. */
  lemma {:induction false} AppendKeepsNewest(s: State, f: FeedId)
    requires Inv(s) && Enabled(s, Prepare(f))
    ensures var p := Apply(s, Prepare(f)); var seg := s.feeds[f].writer.seg; var cache := s.feeds[f].cache;
      && Enabled(p, Store(f))
      && var next := Apply(p, Store(f)).feeds[f].cache;
      && next.end == seg.end
      && next.events ==
           LastOf(s.capacity, if seg.begin == cache.end then cache.events + seg.envelopes else seg.envelopes)
      && (|next.events| < s.capacity ==> next.begin == if seg.begin == cache.end then cache.begin else seg.begin)
  {
  }

  // ---- Termination of feed.consume with the rest of the system at rest ---------

  /** A move of feed.consume itself: no cancellation, no wake-up, fn accepts, and
      the source delivers only segments that advance, as Local and Memory do. */
  predicate Solo(c: Consumer, m: Move) {
    match m
    case Load => true
    case Offer(accept) => accept
    case Enter => true
    case Wait => true
    case ReadDeliver(end, accept) => accept && c.cp < end
    case ReadEnd => true
    case ReadFail(_) => true
    case _ => false
  }

  /** The distance to the end of the source's stream, then whether the checkpoint
      is still unconfirmed, then the place in the loop. */
  function Rank(s: State, c: Consumer): nat
    requires FeedOf(c.pc).Some? ==> FeedOf(c.pc).value in s.feeds
  {
    var place :=
      match c.pc
      case AtTop(_) => 3
      case Loaded(_, _) => 2
      case Reading(_, from, _, _) => if from < c.cp then 4 else 1
      case _ => 0;
    if FeedOf(c.pc).None? then 0
    else
      var end := s.feeds[c.pc.feed].sourceEnd;
      10 * (if c.cp < end then end - c.cp else 0) + (if c.confirmed then 0 else 5) + place
  }

  lemma {:induction false} SoloDescends(s: State, c: Consumer, m: Move)
    requires ConsumerOk(s, c) && MoveEnabled(s, c, m) && Solo(c, m)
    ensures var d := Moved(s, c, m);
      && (FeedOf(d.pc).Some? ==> FeedOf(d.pc).value in s.feeds)
      && Rank(s, d) < Rank(s, c)
  {
  }

  ghost predicate SoloRun(s: State, c: Consumer, moves: seq<Move>)
    decreases |moves|
  {
    moves == [] || (MoveEnabled(s, c, moves[0]) && Solo(c, moves[0]) && SoloRun(s, Moved(s, c, moves[0]), moves[1..]))
  }

  ghost function SoloEnd(s: State, c: Consumer, moves: seq<Move>): Consumer
    requires SoloRun(s, c, moves)
    decreases |moves|
  {
    if moves == [] then c else SoloEnd(s, Moved(s, c, moves[0]), moves[1..])
  }

  /** With the sources, caches and catalog at rest, feed.consume makes at most
      Rank moves. */
  lemma {:induction false} SoloRunBounded(s: State, c: Consumer, moves: seq<Move>)
    requires SharedOk(s) && ConsumerOk(s, c) && SoloRun(s, c, moves)
    ensures |moves| <= Rank(s, c)
    ensures ConsumerOk(s, SoloEnd(s, c, moves))
    decreases |moves|
  {
    if moves != [] {
      SoloDescends(s, c, moves[0]);
      MoveKeeps(s, c, moves[0]);
      SoloRunBounded(s, Moved(s, c, moves[0]), moves[1..]);
    }
  }

  /** ... and until it waits or returns it has a move to make, which is a failed
      read only if the checkpoint is beyond the end of the source's stream. */
  lemma {:induction false} SoloProgress(s: State, c: Consumer) returns (m: Move)
    requires ConsumerOk(s, c) && (FeedOf(c.pc).Some? ==> s.feeds[c.pc.feed].sourceEnd <= s.log.end)
    requires c.pc.AtTop? || c.pc.Loaded? || c.pc.Reading?
    ensures MoveEnabled(s, c, m) && Solo(c, m)
    ensures m.ReadFail? ==> s.feeds[c.pc.feed].sourceEnd < c.cp
  {
    match c.pc
    case AtTop(_) => return Load;
    case Loaded(_, seg) =>
      if RelationOf(seg, c.cp) == Inside {
        return Offer(true);
      } else if MustRead(c, seg) {
        return Enter;
      }
      return Wait;
    case Reading(f, _, _, _) =>
      var end := s.feeds[f].sourceEnd;
      if c.cp < end {
        return ReadDeliver(end, true);
      } else if c.cp == end {
        return ReadEnd;
      }
      return ReadFail(OutOfRange);
  }

  lemma {:induction false} BeyondEndMove(s: State, c: Consumer, m: Move)
    requires ConsumerOk(s, c) && MoveEnabled(s, c, m) && Solo(c, m)
    requires FeedOf(c.pc).Some? && s.feeds[c.pc.feed].sourceEnd < c.cp
    requires SnapshotOk(s.log, s.feeds[c.pc.feed], s.feeds[c.pc.feed].cache)
    ensures var d := Moved(s, c, m);
      && d.cp == c.cp && d.delivered == c.delivered && !d.pc.Waiting?
      && (FeedOf(d.pc).Some? ==> d.pc.feed == c.pc.feed)
      && (d.pc.Stopped? ==> d.pc.reason.OutOfRange? || d.pc.reason.ReadFailed?)
      && (d.pc.Choosing? ==> s.feeds[c.pc.feed].closed)
  {
  }

  /** From a checkpoint beyond the end of the source's stream nothing is delivered
      and nothing is waited for: consume can only return, with the read's error or
      because the feed is closed. */
  lemma {:induction false} BeyondEndIsReported(s: State, c: Consumer, moves: seq<Move>)
    requires SharedOk(s) && ConsumerOk(s, c) && SoloRun(s, c, moves)
    requires FeedOf(c.pc).Some? && s.feeds[c.pc.feed].sourceEnd < c.cp
    ensures var d := SoloEnd(s, c, moves);
      && d.cp == c.cp && d.delivered == c.delivered && !d.pc.Waiting?
      && (d.pc.Stopped? ==> d.pc.reason.OutOfRange? || d.pc.reason.ReadFailed?)
      && (d.pc.Choosing? ==> s.feeds[c.pc.feed].closed)
    decreases |moves|
  {
    if moves != [] {
      var d := Moved(s, c, moves[0]);
      BeyondEndMove(s, c, moves[0]);
      MoveKeeps(s, c, moves[0]);
      if FeedOf(d.pc).Some? {
        BeyondEndIsReported(s, d, moves[1..]);
      }
    }
  }

  // ---- What a turn of feed.consume comes to --------------------------------------

  /** On a feed, and about to act on nothing older than what is cached now. */
  ghost predicate UpToDate(s: State, c: Consumer) {
    && FeedOf(c.pc).Some? && c.pc.feed in s.feeds && !c.pc.Waiting?
    && (c.pc.Loaded? ==> c.pc.seg == s.feeds[c.pc.feed].cache)
  }

  /** Everything cached at the feed has been passed on to a consumer that waits there. */
  ghost predicate NothingLeft(s: State, c: Consumer) {
    && c.pc.Waiting? && c.pc.feed in s.feeds
    && s.feeds[c.pc.feed].cache.end <= c.cp <= s.feeds[c.pc.feed].sourceEnd
  }

  /** Where a consumer of feed f may be found, and by which last move. */
  ghost predicate SettledOn(s: State, f: FeedId, d: Consumer, m: Move)
    requires f in s.feeds
  {
    && (FeedOf(d.pc).Some? ==> d.pc.feed == f && (UpToDate(s, d) || NothingLeft(s, d)))
    && (d.pc.Choosing? ==> s.feeds[f].closed)
    && (d.pc.Stopped? ==> m == ReadFail(d.pc.reason) && !s.feeds[f].closed)
  }

  lemma {:induction false} SoloMoveSettles(s: State, c: Consumer, m: Move)
    requires SharedOk(s) && ConsumerOk(s, c) && UpToDate(s, c) && MoveEnabled(s, c, m) && Solo(c, m)
    ensures SettledOn(s, c.pc.feed, Moved(s, c, m), m)
  {
    assert FeedOk(s.log, s.capacity, s.feeds[c.pc.feed]);
  }

  lemma {:induction false} OffFeedIsOver(s: State, c: Consumer, moves: seq<Move>)
    requires SoloRun(s, c, moves) && (c.pc.Waiting? || c.pc.Choosing? || c.pc.Stopped?)
    ensures moves == []
  {
  }

  lemma {:induction false} SoloSettles(s: State, c: Consumer, moves: seq<Move>)
    requires SharedOk(s) && ConsumerOk(s, c) && UpToDate(s, c) && SoloRun(s, c, moves) && moves != []
    ensures SettledOn(s, c.pc.feed, SoloEnd(s, c, moves), moves[|moves| - 1])
    decreases |moves|
  {
    var d := Moved(s, c, moves[0]);
    SoloMoveSettles(s, c, moves[0]);
    if UpToDate(s, d) && moves[1..] != [] {
      MoveKeeps(s, c, moves[0]);
      SoloSettles(s, d, moves[1..]);
    } else if !UpToDate(s, d) {
      OffFeedIsOver(s, d, moves[1..]);
    }
  }

  /** With the rest of the system at rest, feed.consume ends by waiting only once
      everything in the cache, and so everything up to the cache's end, has been
      passed on; it returns only with the error of a read of an open feed, or because
      the feed is closed. */
  lemma {:induction false} WaitsWithNothingLeft(s: State, c: Consumer, moves: seq<Move>)
    requires SharedOk(s) && ConsumerOk(s, c) && UpToDate(s, c) && SoloRun(s, c, moves)
    ensures var d := SoloEnd(s, c, moves); var feed := s.feeds[c.pc.feed];
      && (d.pc.Waiting? ==> d.pc.feed == c.pc.feed && feed.cache.end <= d.cp <= feed.sourceEnd)
      && (d.pc.Choosing? ==> feed.closed)
      && (d.pc.Stopped? ==> !feed.closed && moves != [] && moves[|moves| - 1] == ReadFail(d.pc.reason))
  {
    if moves != [] {
      SoloSettles(s, c, moves);
    }
  }

  /** A waiting consumer is woken to look at the cache again, so that it never waits on
      beside what was appended meanwhile. */
  lemma {:induction false} WokenTakesTheNew(s: State, c: Consumer, moves: seq<Move>)
    requires SharedOk(s) && ConsumerOk(s, c) && c.pc.Waiting?
    requires SoloRun(s, Moved(s, c, Wake), moves) && SoloEnd(s, Moved(s, c, Wake), moves).pc.Waiting?
    ensures s.feeds[c.pc.feed].cache.end <= SoloEnd(s, Moved(s, c, Wake), moves).cp
  {
    MoveKeeps(s, c, Wake);
    WaitsWithNothingLeft(s, Moved(s, c, Wake), moves);
  }

  /** Each delivery ends where the cached segment or the source's segment ends, a read
      goes on until it reaches the cached segment, and what fn rejects is not recorded
      as consumed, whether or not the feed has been closed. */
  lemma {:induction false} DeliveryAdvances(s: State, c: Consumer, m: Move)
    requires ConsumerOk(s, c) && MoveEnabled(s, c, m) && (m.Offer? || m.ReadDeliver?)
    ensures var d := Moved(s, c, m); var end := if m.Offer? then c.pc.seg.end else m.end;
      if !m.accept then d == c.(pc := Stopped(Rejected))
      else
        && d.cp == end
        && (m.Offer? || s.feeds[c.pc.feed].cache.begin <= end ==>
              (d.confirmed && d.pc == AtTop(c.pc.feed)) || (end <= c.cp && d.pc == Stopped(TooShort)))
        && (m.ReadDeliver? && end < s.feeds[c.pc.feed].cache.begin ==> d.pc == c.pc)
  {
  }

  // ---- Takeover --------------------------------------------------------------------

  /** Still on the same feed without having begun a read, or back at the catalog. */
  predicate LettingGo(c: Consumer, d: Consumer) {
    && !d.pc.Stopped?
    && (FeedOf(d.pc).Some? ==> FeedOf(d.pc) == FeedOf(c.pc))
    && (d.pc.Reading? ==> c.pc.Reading?)
  }

  lemma {:induction false} ClosedMoveLetsGo(s: State, c: Consumer, m: Move)
    requires ConsumerOk(s, c) && MoveEnabled(s, c, m) && Solo(c, m) && s.feeds[c.pc.feed].closed
    ensures LettingGo(c, Moved(s, c, m))
  {
  }

  /** A closed feed lets its consumers go without reporting anything to them: reads in
      progress end silently, none begins, and whoever waits sees the closure. */
  lemma {:induction false} ClosedLetsGo(s: State, c: Consumer, moves: seq<Move>)
    requires SharedOk(s) && ConsumerOk(s, c) && SoloRun(s, c, moves)
    requires FeedOf(c.pc).Some? && s.feeds[c.pc.feed].closed
    ensures var d := SoloEnd(s, c, moves);
      && LettingGo(c, d)
      && (d.pc.Waiting? ==> MoveEnabled(s, d, SeeClosed) && Moved(s, d, SeeClosed) == d.(pc := Choosing))
    decreases |moves|
  {
    if moves != [] {
      var d := Moved(s, c, moves[0]);
      ClosedMoveLetsGo(s, c, moves[0]);
      MoveKeeps(s, c, moves[0]);
      if FeedOf(d.pc).Some? {
        ClosedLetsGo(s, d, moves[1..]);
      }
    }
  }

  /** From the catalog a consumer goes on where it was, at the current feed, which is
      open. It is told that there is no such stream only if there is no feed, and panics
      only if the feed does not carry all of its types. */
  lemma {:induction false} GoesOnAtCurrent(s: State, c: Consumer)
    requires SharedOk(s) && c.pc.Choosing?
    ensures MoveEnabled(s, c, Choose)
    ensures var d := Moved(s, c, Choose);
      && d.cp == c.cp && d.delivered == c.delivered
      && (d.pc.AtTop? || d.pc == Stopped(NotFound) || d.pc == Stopped(Unwatched))
      && (d.pc == Stopped(NotFound) <==> s.available == {})
      && (d.pc == Stopped(Unwatched) <==>
            && s.current.Some?
            && exists t: Uuid :: Wants(c.types, t) && !Wants(s.feeds[s.current.value].types, t))
      && (d.pc.AtTop? ==> s.current == Some(d.pc.feed) && d.pc.feed in s.available && !s.feeds[d.pc.feed].closed)
  {
  }
}
