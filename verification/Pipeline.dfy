/** The parts joined: a process handler's consumers, served by the catalog, as one system
    (internal/eventstream/consumer.go), and the assumptions that each part makes of the one
    before it. */
module Pipeline {
  import opened Stream
  import F = Feeds
  import P = ProcessSink
  import Q = ProjectionSink
  import L = LocalSource
  import H = HistoricalReads
  import A = Aggregates
  import C = CommandHandling

  // ---- What a feed hands to fn ---------------------------------------------------------

  /** The feed is about to call fn with a segment that ends at `end`. */
  ghost predicate Handing(f: F.State, c: F.Consumer, end: nat) {
    && (c.pc.Loaded? || c.pc.Reading?)
    && F.MoveEnabled(f, c, Answer(c, end, true))
    && (c.pc.Loaded? ==> end == c.pc.seg.end)
  }

  /** The feed's move once fn has returned. */
  ghost function Answer(c: F.Consumer, end: nat, accept: bool): F.Move {
    if c.pc.Loaded? then F.Offer(accept) else F.ReadDeliver(end, accept)
  }

  /** That segment: from the cached snapshot, or from the source. */
  ghost function Handed(f: F.State, c: F.Consumer, end: nat): Segment {
    Segment(f.id, c.cp, end, Slice(if c.pc.Loaded? then c.pc.seg.events else f.log.events, c.types, c.cp, end))
  }

  /** Whichever it is from, it is the log's slice from the consumer's checkpoint. */
  lemma {:induction false} HandedIsSlice(f: F.State, c: F.Consumer, end: nat)
    requires ValidLog(f.log) && F.ConsumerOk(f, c) && Handing(f, c, end)
    ensures c.cp <= end <= f.log.end
    ensures Handed(f, c, end) == Segment(f.id, c.cp, end, Slice(f.log.events, c.types, c.cp, end))
  {
    if c.pc.Loaded? {
      var seg := c.pc.seg;
      SliceSlice(f.log.events, f.feeds[c.pc.feed].types, seg.begin, seg.end, c.types, c.cp, seg.end);
    }
  }

  /** So it is a segment that either sink may be given: what their Receive assumes is what the
      feed does. */
  lemma {:induction false} HandedIsReceived(f: F.State, c: F.Consumer, end: nat, p: P.State, pc: P.Consumer,
                                            q: Q.State, qc: Q.Consumer)
    requires ValidLog(f.log) && F.ConsumerOk(f, c) && Handing(f, c, end)
    requires p.id == q.id == f.id && p.log == q.log == f.log && p.types == q.types == c.types
    requires pc.pc.Idle? && pc.pos == c.cp && qc.pc.Idle? && qc.pos == c.cp
    ensures P.MoveEnabled(p, 0, pc, P.Receive(end)) && Q.MoveEnabled(q, qc, Q.Receive(end))
    ensures P.Moved(p, 0, pc, P.Receive(end)).pc == P.InSegment(Handed(f, c, end), 0)
    ensures Q.Moved(q, qc, Q.Receive(end)).pc == Q.InSegment(Handed(f, c, end), 0)
  {
    HandedIsSlice(f, c, end);
  }

  /** While fn runs, the log, the sources and the caches may change, but not the segment. */
  lemma {:induction false} HandedStays(f: F.State, t: F.State, c: F.Consumer, end: nat)
    requires ValidLog(f.log) && F.ConsumerOk(f, c) && Handing(f, c, end) && F.Evolves(f, t)
    requires forall x :: x in t.feeds ==> t.feeds[x].sourceEnd <= t.log.end
    ensures Handing(t, c, end) && Handed(t, c, end) == Handed(f, c, end)
  {
    HandedIsSlice(f, c, end);
    if c.pc.Reading? {
      SliceExtends(f.log, t.log, c.types, c.cp, end);
    }
  }

  // ---- A handler's consumers and the catalog as one system -----------------------------

  /** `calls` holds the latest call to Catalog.Consume of each of the handler's consumers. */
  datatype State = State(feeds: F.State, sink: P.State, calls: map<P.ConsumerId, F.ConsumerId>)

  datatype Step =
    | Feed(step: F.Step)                              // the catalog, the sources, other consumers
    | Grow(log: Log)
    | Open(id: P.ConsumerId)                          // startStreamConsumer
    | Start(id: P.ConsumerId, call: F.ConsumerId)     // CheckpointOffset, then Consume
    | Hand(id: P.ConsumerId, end: nat)                // Consume calls fn, which is ConsumeSegment
    | Sink(id: P.ConsumerId, move: P.Move)            // ConsumeSegment goes on
    | Accept(id: P.ConsumerId)                        // it returns true
    | Refuse(id: P.ConsumerId, move: P.Move)          // it returns false or an error
    | Restart(id: P.ConsumerId)                       // Consume has returned by itself

  predicate Running(p: P.Consumer) {
    p.pc.InSegment? || p.pc.Locked?
  }

  ghost predicate Owned(s: State, call: F.ConsumerId) {
    exists id :: id in s.calls && s.calls[id] == call
  }

  ghost predicate Busy(s: State, call: F.ConsumerId) {
    exists id :: id in s.calls && s.calls[id] == call && id in s.sink.consumers && Running(s.sink.consumers[id])
  }

  /** The consumer and its call both exist. */
  ghost predicate Called(s: State, id: P.ConsumerId) {
    id in s.calls && id in s.sink.consumers && s.calls[id] in s.feeds.consumers
  }

  ghost predicate Enabled(s: State, step: Step) {
    match step
    case Feed(fs) =>
      && F.Enabled(s.feeds, fs) && !fs.Grow?
      && (fs.Act? ==> !Busy(s, fs.consumer) && (fs.move.Offer? || fs.move.ReadDeliver? ==> !Owned(s, fs.consumer)))
    case Grow(log) => ValidLog(log) && Extends(s.feeds.log, log)
    case Open(id) => id !in s.sink.consumers
    case Start(id, call) => id in s.sink.consumers && s.sink.consumers[id].pc.Starting? && call !in s.feeds.consumers
    case Hand(id, end) =>
      Called(s, id) && s.sink.consumers[id].pc.Idle? && Handing(s.feeds, s.feeds.consumers[s.calls[id]], end)
    case Sink(id, move) =>
      && id in s.sink.consumers && P.MoveEnabled(s.sink, id, s.sink.consumers[id], move)
      && (move.Skip? || move.Lock? || move == P.Commit(true))
    case Accept(id) =>
      Called(s, id) && Running(s.sink.consumers[id]) && P.MoveEnabled(s.sink, id, s.sink.consumers[id], P.Accept)
    case Refuse(id, move) =>
      && Called(s, id) && Running(s.sink.consumers[id]) && P.MoveEnabled(s.sink, id, s.sink.consumers[id], move)
      && (move.Conflict? || move.Fail? || move == P.Commit(false) || move.Crash?)
    case Restart(id) => Called(s, id) && s.sink.consumers[id].pc.Idle? && s.feeds.consumers[s.calls[id]].pc.Stopped?
  }

  /** The feed's move once ConsumeSegment has returned. */
  ghost function AnswerOf(s: State, id: P.ConsumerId, accept: bool): F.Move
    requires Called(s, id) && Running(s.sink.consumers[id])
  {
    Answer(s.feeds.consumers[s.calls[id]], s.sink.consumers[id].pc.seg.end, accept)
  }

  /** The step of the feeds that a step amounts to, if any. */
  ghost function FeedStep(s: State, step: Step): Option<F.Step>
    requires Enabled(s, step)
  {
    match step
    case Feed(fs) => Some(fs)
    case Grow(log) => Some(F.Grow(log))
    case Start(id, call) => Some(F.Join(call, s.sink.types, s.sink.checkpoint))
    case Accept(id) => Some(F.Act(s.calls[id], AnswerOf(s, id, true)))
    case Refuse(id, _) => Some(F.Act(s.calls[id], AnswerOf(s, id, false)))
    case _ => None
  }

  /** The step of the sink that a step amounts to, if any, apart from Hand. */
  ghost function SinkStep(s: State, step: Step): Option<P.Step>
    requires Enabled(s, step)
  {
    match step
    case Feed(_) => None
    case Grow(log) => Some(P.Grow(log))
    case Open(id) => Some(P.Join(id))
    case Start(id, _) => Some(P.Act(id, P.Start))
    case Hand(_, _) => None
    case Sink(id, move) => Some(P.Act(id, move))
    case Accept(id) => Some(P.Act(id, P.Accept))
    case Refuse(id, move) => Some(P.Act(id, move))
    case Restart(id) => Some(P.Act(id, P.Crash))
  }

  /** ConsumeSegment is given what the feed hands over, whatever that is. */
  ghost function Given(s: State, id: P.ConsumerId, end: nat): P.State
    requires Called(s, id)
  {
    var p := s.sink.consumers[id];
    var seg := Handed(s.feeds, s.feeds.consumers[s.calls[id]], end);
    s.sink.(consumers := s.sink.consumers[id := p.(pc := P.InSegment(seg, 0))])
  }

  /** Both parts can take their halves of the step. */
  ghost predicate Possible(s: State, step: Step) {
    && Enabled(s, step)
    && (FeedStep(s, step).Some? ==> 0 < s.feeds.capacity && F.Enabled(s.feeds, FeedStep(s, step).value))
    && (SinkStep(s, step).Some? ==> P.Enabled(s.sink, SinkStep(s, step).value))
  }

  ghost function NextFeeds(s: State, step: Step): F.State
    requires Possible(s, step)
  {
    if FeedStep(s, step).Some? then F.Apply(s.feeds, FeedStep(s, step).value) else s.feeds
  }

  ghost function NextSink(s: State, step: Step): P.State
    requires Possible(s, step)
  {
    if step.Hand? then Given(s, step.id, step.end)
    else if SinkStep(s, step).Some? then P.Apply(s.sink, SinkStep(s, step).value) else s.sink
  }

  ghost function Apply(s: State, step: Step): State
    requires Possible(s, step)
  {
    State(NextFeeds(s, step), NextSink(s, step), if step.Start? then s.calls[step.id := step.call] else s.calls)
  }

  ghost predicate Init(s: State) {
    && F.Init(s.feeds) && P.Init(s.sink) && s.feeds.log == s.sink.log && s.feeds.id == s.sink.id
    && s.calls == map[]
  }

  // ---- Invariant -----------------------------------------------------------------------

  /** Between segments the sink's position is the catalog's; within one, ConsumeSegment has
      the very segment that the feed waits for it to accept. */
  ghost predicate PairOk(f: F.State, c: F.Consumer, p: P.Consumer, types: Types) {
    && c.types == types
    && (!p.pc.Starting? ==> p.pos == c.cp)
    && (Running(p) ==> Handing(f, c, p.pc.seg.end) && p.pc.seg == Handed(f, c, p.pc.seg.end))
  }

  ghost predicate Coupled(s: State, id: P.ConsumerId) {
    Called(s, id) && PairOk(s.feeds, s.feeds.consumers[s.calls[id]], s.sink.consumers[id], s.sink.types)
  }

  /** Every call belongs to one consumer. */
  ghost predicate Injective(calls: map<P.ConsumerId, F.ConsumerId>) {
    forall a, b :: a in calls && b in calls && calls[a] == calls[b] ==> a == b
  }

  ghost predicate AllCoupled(s: State) {
    forall id :: id in s.calls ==> Coupled(s, id)
  }

  /** A consumer that has started has made a call. */
  ghost predicate AllCalled(sink: P.State, calls: map<P.ConsumerId, F.ConsumerId>) {
    forall id :: id in sink.consumers && !sink.consumers[id].pc.Starting? ==> id in calls
  }

  // "true ==" keeps the verifier from taking the predicates apart wherever they are proved.
  ghost predicate Inv(s: State) {
    && true == F.Inv(s.feeds) && true == P.Inv(s.sink)
    && s.feeds.log == s.sink.log && s.feeds.id == s.sink.id
    && true == Injective(s.calls) && true == AllCoupled(s) && true == AllCalled(s.sink, s.calls)
  }

  // ---- Proof ---------------------------------------------------------------------------

  /** What ConsumeSegment is given is what the sink alone assumes that it is given. */
  lemma {:induction false} HandIsReceive(s: State, id: P.ConsumerId, end: nat)
    requires Inv(s) && Enabled(s, Hand(id, end))
    ensures P.Enabled(s.sink, P.Act(id, P.Receive(end)))
    ensures Given(s, id, end) == P.Apply(s.sink, P.Act(id, P.Receive(end)))
  {
    assert Coupled(s, id);
    HandedIsSlice(s.feeds, s.feeds.consumers[s.calls[id]], end);
    assert P.ConsumerOk(s.sink, id, s.sink.consumers[id]);
  }

  lemma {:induction false} AnswerPossible(s: State, id: P.ConsumerId, accept: bool)
    requires Inv(s) && Called(s, id) && Running(s.sink.consumers[id])
    ensures F.Enabled(s.feeds, F.Act(s.calls[id], AnswerOf(s, id, accept)))
  {
    assert Coupled(s, id);
  }

  /** The parts fit: each is always ready for its half of a step of the whole. */
  lemma {:induction false} AlwaysPossible(s: State, step: Step)
    requires Inv(s) && Enabled(s, step)
    ensures Possible(s, step)
  {
    SinkPossible(s, step);
    if step.Accept? || step.Refuse? {
      AnswerPossible(s, step.id, step.Accept?);
    }
  }

  lemma {:induction false} SinkPossible(s: State, step: Step)
    requires Inv(s) && Enabled(s, step)
    ensures SinkStep(s, step).Some? ==> P.Enabled(s.sink, SinkStep(s, step).value)
  {
  }

  lemma {:induction false} FeedsKeep(s: State, step: Step)
    requires Inv(s) && Possible(s, step)
    ensures F.Inv(NextFeeds(s, step)) && F.Evolves(s.feeds, NextFeeds(s, step))
  {
    if FeedStep(s, step).Some? {
      F.StepKeeps(s.feeds, FeedStep(s, step).value);
    } else {
      F.RunKeeps(s.feeds, []);
    }
  }

  lemma {:induction false} SinkKeeps(s: State, step: Step)
    requires Inv(s) && Possible(s, step)
    ensures P.Inv(NextSink(s, step))
  {
    if step.Hand? {
      HandIsReceive(s, step.id, step.end);
      P.StepKeeps(s.sink, P.Act(step.id, P.Receive(step.end)));
    } else if SinkStep(s, step).Some? {
      P.StepKeeps(s.sink, SinkStep(s, step).value);
    }
  }

  lemma {:induction false} SameStream(s: State, step: Step)
    requires Inv(s) && Possible(s, step)
    ensures NextFeeds(s, step).log == NextSink(s, step).log && NextFeeds(s, step).id == NextSink(s, step).id
    ensures NextSink(s, step).types == s.sink.types
  {
    FeedsSame(s, step);
    SinkSame(s, step);
  }

  lemma {:induction false} FeedsSame(s: State, step: Step)
    requires Possible(s, step)
    ensures NextFeeds(s, step).id == s.feeds.id
    ensures NextFeeds(s, step).log == if step.Grow? then step.log else s.feeds.log
  {
  }

  lemma {:induction false} SinkSame(s: State, step: Step)
    requires Possible(s, step)
    ensures NextSink(s, step).id == s.sink.id && NextSink(s, step).types == s.sink.types
    ensures NextSink(s, step).log == if step.Grow? then step.log else s.sink.log
  {
  }

  // ---- What a step does to one consumer ------------------------------------------------

  /** The step is one of the handler's consumer `id`, which exists. */
  predicate Of(step: Step, id: P.ConsumerId) {
    !step.Feed? && !step.Grow? && !step.Open? && step.id == id
  }

  lemma {:induction false} CallActs(f: F.State, call: F.ConsumerId, m: F.Move)
    requires 0 < f.capacity && F.Enabled(f, F.Act(call, m))
    ensures F.Apply(f, F.Act(call, m)).consumers == f.consumers[call := F.Moved(f, f.consumers[call], m)]
  {
  }

  lemma {:induction false} CallIdle(f: F.State, fs: F.Step, call: F.ConsumerId)
    requires 0 < f.capacity && F.Enabled(f, fs) && call in f.consumers && !(fs.Act? && fs.consumer == call)
    ensures var t := F.Apply(f, fs); call in t.consumers && t.consumers[call] == f.consumers[call]
  {
  }

  lemma {:induction false} SinkActs(p: P.State, id: P.ConsumerId, m: P.Move)
    requires P.Enabled(p, P.Act(id, m))
    ensures P.Apply(p, P.Act(id, m)).consumers == p.consumers[id := P.Moved(p, id, p.consumers[id], m)]
  {
  }

  /** A move of the feed that calls no fn keeps its checkpoint. */
  ghost predicate Silent(c: F.Consumer, d: F.Consumer) {
    d.types == c.types && d.cp == c.cp
  }

  lemma {:induction false} MovedTo(f: F.State, c: F.Consumer, m: F.Move)
    requires F.MoveEnabled(f, c, m)
    ensures var d := F.Moved(f, c, m);
      && d.types == c.types
      && (m.Offer? && m.accept ==> d.cp == c.pc.seg.end)
      && (m.ReadDeliver? && m.accept ==> d.cp == m.end)
      && (!m.Offer? && !m.ReadDeliver? ==> d.cp == c.cp)
  {
  }

  /** Another consumer's step leaves this one's call alone, unless it is the call's own and
      no fn is running. */
  lemma {:induction false} CallKept(s: State, step: Step, id: P.ConsumerId)
    requires Inv(s) && Possible(s, step) && id in s.calls && !Of(step, id)
    ensures var call, f := s.calls[id], NextFeeds(s, step);
      && call in f.consumers
      && (f.consumers[call] == s.feeds.consumers[call]
          || (Silent(s.feeds.consumers[call], f.consumers[call]) && !Running(s.sink.consumers[id])))
  {
    var call := s.calls[id];
    assert Coupled(s, id);
    if FeedStep(s, step).Some? {
      var fs := FeedStep(s, step).value;
      if fs.Act? && fs.consumer == call {
        assert step.Feed? && Owned(s, call);
        CallActs(s.feeds, call, fs.move);
        MovedTo(s.feeds, s.feeds.consumers[call], fs.move);
      } else {
        CallIdle(s.feeds, fs, call);
      }
    }
  }

  lemma {:induction false} ConsumerKept(s: State, step: Step, id: P.ConsumerId)
    requires Possible(s, step) && id in s.sink.consumers && !Of(step, id)
    ensures id in NextSink(s, step).consumers && NextSink(s, step).consumers[id] == s.sink.consumers[id]
  {
  }

  /** Whatever else happens, the two stay together. */
  lemma {:induction false} PairStays(f: F.State, t: F.State, c: F.Consumer, d: F.Consumer, p: P.Consumer, types: Types)
    requires PairOk(f, c, p, types) && F.ConsumerOk(f, c) && F.SharedOk(f) && F.SharedOk(t) && F.Evolves(f, t)
    requires d == c || (Silent(c, d) && !Running(p))
    ensures PairOk(t, d, p, types)
  {
    if Running(p) {
      HandedStays(f, t, c, p.pc.seg.end);
    }
  }

  lemma {:induction false} OthersStayCoupled(s: State, step: Step, id: P.ConsumerId)
    requires Inv(s) && Possible(s, step) && id in s.calls && !Of(step, id)
    requires F.Inv(NextFeeds(s, step)) && F.Evolves(s.feeds, NextFeeds(s, step))
    requires NextSink(s, step).types == s.sink.types
    ensures var call, f, p := s.calls[id], NextFeeds(s, step), NextSink(s, step);
      call in f.consumers && id in p.consumers && PairOk(f, f.consumers[call], p.consumers[id], p.types)
  {
    var call := s.calls[id];
    assert Coupled(s, id);
    CallKept(s, step, id);
    ConsumerKept(s, step, id);
    PairStays(s.feeds, NextFeeds(s, step), s.feeds.consumers[call], NextFeeds(s, step).consumers[call],
              s.sink.consumers[id], s.sink.types);
  }

  // ---- A consumer's own steps ------------------------------------------------------------

  lemma {:induction false} StartCouples(s: State, id: P.ConsumerId, call: F.ConsumerId)
    requires Inv(s) && Possible(s, Start(id, call))
    ensures Coupled(Apply(s, Start(id, call)), id)
  {
  }

  lemma {:induction false} HandCouples(s: State, id: P.ConsumerId, end: nat)
    requires Inv(s) && Possible(s, Hand(id, end))
    ensures Coupled(Apply(s, Hand(id, end)), id)
  {
    assert Coupled(s, id);
  }

  lemma {:induction false} SinkCouples(s: State, id: P.ConsumerId, move: P.Move)
    requires Inv(s) && Possible(s, Sink(id, move)) && id in s.calls
    ensures Coupled(Apply(s, Sink(id, move)), id)
  {
    assert Coupled(s, id);
    SinkActs(s.sink, id, move);
    SinkSame(s, Sink(id, move));
    var p := s.sink.consumers[id];
    var d := P.Moved(s.sink, id, p, move);
    assert Running(p) && Running(d) && d.pos == p.pos && d.pc.seg == p.pc.seg;
  }

  /** Once fn has returned, the sink has moved to where the feed has, or starts again. */
  lemma {:induction false} AnswerCouples(s: State, id: P.ConsumerId, accept: bool, f: F.State, p: P.State,
                                         d: P.Consumer)
    requires Inv(s) && Called(s, id) && Running(s.sink.consumers[id])
    requires 0 < s.feeds.capacity && F.Enabled(s.feeds, F.Act(s.calls[id], AnswerOf(s, id, accept)))
    requires f == F.Apply(s.feeds, F.Act(s.calls[id], AnswerOf(s, id, accept)))
    requires p.types == s.sink.types && p.consumers == s.sink.consumers[id := d]
    requires if accept then d.pc.Idle? && d.pos == s.sink.consumers[id].pc.seg.end else d.pc.Starting?
    ensures Coupled(State(f, p, s.calls), id)
  {
    assert Coupled(s, id);
    CallActs(s.feeds, s.calls[id], AnswerOf(s, id, accept));
    MovedTo(s.feeds, s.feeds.consumers[s.calls[id]], AnswerOf(s, id, accept));
  }

  lemma {:induction false} AcceptCouples(s: State, id: P.ConsumerId)
    requires Inv(s) && Possible(s, Accept(id))
    ensures Coupled(Apply(s, Accept(id)), id)
  {
    SinkActs(s.sink, id, P.Accept);
    SinkSame(s, Accept(id));
    var d := P.Moved(s.sink, id, s.sink.consumers[id], P.Accept);
    AnswerCouples(s, id, true, NextFeeds(s, Accept(id)), NextSink(s, Accept(id)), d);
  }

  lemma {:induction false} RefuseCouples(s: State, id: P.ConsumerId, move: P.Move)
    requires Inv(s) && Possible(s, Refuse(id, move))
    ensures Coupled(Apply(s, Refuse(id, move)), id)
  {
    SinkActs(s.sink, id, move);
    SinkSame(s, Refuse(id, move));
    var d := P.Moved(s.sink, id, s.sink.consumers[id], move);
    AnswerCouples(s, id, false, NextFeeds(s, Refuse(id, move)), NextSink(s, Refuse(id, move)), d);
  }

  lemma {:induction false} RestartCouples(s: State, id: P.ConsumerId)
    requires Inv(s) && Possible(s, Restart(id))
    ensures Coupled(Apply(s, Restart(id)), id)
  {
    assert Coupled(s, id);
  }

  lemma {:induction false} OwnStepCouples(s: State, step: Step, id: P.ConsumerId)
    requires Inv(s) && Possible(s, step) && Of(step, id) && id in Apply(s, step).calls
    ensures Coupled(Apply(s, step), id)
  {
    match step
    case Start(_, call) => StartCouples(s, id, call);
    case Hand(_, end) => HandCouples(s, id, end);
    case Sink(_, move) => SinkCouples(s, id, move);
    case Accept(_) => AcceptCouples(s, id);
    case Refuse(_, move) => RefuseCouples(s, id, move);
    case Restart(_) => RestartCouples(s, id);
  }

  /** A consumer that has started has made a call. */
  lemma {:induction false} StartedHaveCalls(s: State, step: Step, id: P.ConsumerId)
    requires Inv(s) && Possible(s, step)
    requires id in NextSink(s, step).consumers && !NextSink(s, step).consumers[id].pc.Starting?
    ensures id in if step.Start? then s.calls[step.id := step.call] else s.calls
  {
    if Of(step, id) {
      assert step.Start? || id in s.calls;
    } else if id in s.sink.consumers {
      ConsumerKept(s, step, id);
    } else {
      OpenedStarting(s, step, id);
    }
  }

  lemma {:induction false} OpenedStarting(s: State, step: Step, id: P.ConsumerId)
    requires Possible(s, step) && !Of(step, id) && id !in s.sink.consumers && id in NextSink(s, step).consumers
    ensures NextSink(s, step).consumers[id].pc.Starting?
  {
  }

  lemma {:induction false} StepCouples(s: State, step: Step, id: P.ConsumerId)
    requires Inv(s) && Possible(s, step) && id in Apply(s, step).calls
    requires F.Inv(NextFeeds(s, step)) && F.Evolves(s.feeds, NextFeeds(s, step))
    requires NextSink(s, step).types == s.sink.types
    ensures Coupled(Apply(s, step), id)
  {
    if Of(step, id) {
      OwnStepCouples(s, step, id);
    } else {
      OthersStayCoupled(s, step, id);
    }
  }

  lemma {:induction false} StepCouplesAll(s: State, step: Step)
    requires Inv(s) && Possible(s, step)
    requires F.Inv(NextFeeds(s, step)) && F.Evolves(s.feeds, NextFeeds(s, step))
    requires NextSink(s, step).types == s.sink.types
    ensures AllCoupled(Apply(s, step))
  {
    forall id | id in Apply(s, step).calls ensures Coupled(Apply(s, step), id) {
      StepCouples(s, step, id);
    }
  }

  lemma {:induction false} StartedAllHaveCalls(s: State, step: Step)
    requires Inv(s) && Possible(s, step)
    ensures AllCalled(Apply(s, step).sink, Apply(s, step).calls)
  {
    var t := Apply(s, step);
    forall id | id in t.sink.consumers && !t.sink.consumers[id].pc.Starting? ensures id in t.calls {
      StartedHaveCalls(s, step, id);
    }
  }

  lemma {:induction false} CouplingKept(s: State, step: Step)
    requires Inv(s) && Possible(s, step)
    ensures true == AllCoupled(Apply(s, step))
  {
    FeedsKeep(s, step);
    SameStream(s, step);
    StepCouplesAll(s, step);
  }

  lemma {:induction false} CallsKept(s: State, step: Step)
    requires Inv(s) && Possible(s, step)
    ensures true == Injective(Apply(s, step).calls) && true == AllCalled(Apply(s, step).sink, Apply(s, step).calls)
  {
    StepKeepsCalls(s, step);
    StartedAllHaveCalls(s, step);
  }

  lemma {:induction false} PartsKept(s: State, step: Step)
    requires Inv(s) && Possible(s, step)
    ensures true == F.Inv(Apply(s, step).feeds) && true == P.Inv(Apply(s, step).sink)
  {
    FeedsKeep(s, step);
    SinkKeeps(s, step);
  }

  lemma {:induction false} StepKeeps(s: State, step: Step)
    requires Inv(s) && Possible(s, step)
    ensures Inv(Apply(s, step))
  {
    PartsKept(s, step);
    SameStream(s, step);
    CouplingKept(s, step);
    CallsKept(s, step);
  }

  lemma {:induction false} StepKeepsCalls(s: State, step: Step)
    requires Inv(s) && Enabled(s, step)
    ensures Injective(if step.Start? then s.calls[step.id := step.call] else s.calls)
  {
    if step.Start? {
      forall id | id in s.calls ensures s.calls[id] != step.call {
        assert Coupled(s, id);
      }
    }
  }

  // ---- Runs ----------------------------------------------------------------------------

  ghost predicate Run(s: State, steps: seq<Step>)
    decreases |steps|, 0
  {
    steps == [] || (Run(s, steps[..|steps| - 1]) && Possible(StateAfter(s, steps[..|steps| - 1]), steps[|steps| - 1]))
  }

  ghost function StateAfter(s: State, steps: seq<Step>): State
    requires Run(s, steps)
    decreases |steps|, 1
  {
    if steps == [] then s else Apply(StateAfter(s, steps[..|steps| - 1]), steps[|steps| - 1])
  }

  lemma {:induction false} RunKeeps(s: State, steps: seq<Step>)
    requires Inv(s) && Run(s, steps)
    ensures Inv(StateAfter(s, steps))
  {
    if steps != [] {
      RunKeeps(s, steps[..|steps| - 1]);
      StepKeeps(StateAfter(s, steps[..|steps| - 1]), steps[|steps| - 1]);
    }
  }

  /** Between segments the handler's checkpoint is the catalog's. */
  ghost predicate InStep(s: State, id: P.ConsumerId) {
    && Called(s, id)
    && (s.sink.consumers[id].pc.Idle? ==> s.sink.consumers[id].cp == s.feeds.consumers[s.calls[id]].cp)
  }

  /** From end to end: however the log grows, caches are filled, evicted and reset, feeds are
      closed and taken over, reads fail, and consumers overlap, conflict, crash and start
      again, the effects that a process handler has committed are those of exactly the
      stream's matching events below its checkpoint, once each and in order. */
  lemma {:induction false} DispatchedEndToEnd(s: State, steps: seq<Step>)
    requires Init(s) && Run(s, steps)
    ensures var t := StateAfter(s, steps);
      && t.sink.dispatched == Slice(t.feeds.log.events, t.sink.types, 0, t.sink.checkpoint)
      && forall id :: id in t.calls ==> InStep(t, id)
  {
    SliceNone(s.sink.log.events, s.sink.types, 0, 0);
    RunKeeps(s, steps);
    var t := StateAfter(s, steps);
    forall id | id in t.calls ensures InStep(t, id) {
      assert Coupled(t, id) && P.ConsumerOk(t.sink, id, t.sink.consumers[id]);
    }
  }

  // ---- What feeds the feeds ------------------------------------------------------------

  /** Commands make the log of a stream grow as the feeds assume that it does. */
  lemma {:induction false} CommandsGrow(hs: A.Handlers, s: C.State, steps: seq<C.Step>, u: Uuid,
                                        pack: A.Row -> Envelope, f: F.State)
    requires A.RoundTrips(hs) && C.Inv(hs, s) && C.Run(hs, s, steps) && forall r :: pack(r).offset == r.offset
    requires f.log == C.LogOf(pack, A.StreamOf(s.db, u))
    ensures F.Enabled(f, F.Grow(C.LogOf(pack, A.StreamOf(C.StateAfter(hs, s, steps).db, u))))
  {
    C.ReadersMissNothing(hs, s, steps, u, pack);
  }

  /** What a call to Local.Watch passes to fn is what the feeds assume of Source.Watch: each
      segment begins where the last one of its stream ended, and is exact. */
  lemma {:induction false} WatchDelivers(c: L.Call, logs: map<Uuid, Log>, bufferSize: nat, k: nat, f: F.State,
                                         x: F.FeedId)
    requires L.CallOk(c, logs, bufferSize) && k < |c.segs|
    requires f.id == c.segs[k].streamId && f.id in logs && f.log == logs[f.id] && 0 < f.capacity
    requires x in f.available && x in f.feeds && f.feeds[x].sourceEnd == f.log.end && !f.feeds[x].closed
    requires f.feeds[x].writer == F.Between(L.EndOf(f.id, c.segs[..k]))
    ensures var seg := c.segs[k];
      && F.Enabled(f, F.Deliver(x, seg.begin, seg.end))
      && F.Apply(f, F.Deliver(x, seg.begin, seg.end)).feeds[x].writer ==
         F.Checked(seg.(envelopes := Slice(seg.envelopes, f.feeds[x].types, seg.begin, seg.end)))
  {
    var seg := c.segs[k];
    assert L.FaithfulIn(seg, logs);
    L.LinkedPrefix(c.segs, k + 1);
    assert c.segs[..k + 1][..k] == c.segs[..k];
    SliceSlice(f.log.events, Every, seg.begin, seg.end, f.feeds[x].types, seg.begin, seg.end);
  }

  /** A read's next segment, from either source, is one that the feeds assume of Source.Read,
      and so is the end of a read that has come to the end of a stream that only grew. */
  lemma {:induction false} ReadDelivers(f: F.State, c: F.Consumer, seg: Segment, size: nat)
    requires c.pc.Reading? && c.pc.feed in f.feeds && f.feeds[c.pc.feed].sourceEnd == f.log.end
    requires seg.streamId == f.id && seg.begin == c.cp && H.Advances(seg, f.log, c.types, size)
    ensures F.MoveEnabled(f, c, F.ReadDeliver(seg.end, true)) && F.Solo(c, F.ReadDeliver(seg.end, true))
    ensures F.Give(f, c, seg.end, Slice(f.log.events, c.types, c.cp, seg.end)).delivered == c.delivered + [seg]
  {
  }

  lemma {:induction false} ReadEnds(f: F.State, c: F.Consumer, views: H.Views, size: nat, begin: nat, accepts: nat,
                                    delivered: seq<Segment>, end: nat, last: nat)
    requires H.Growing(views) && H.ReadContract(views, c.types, size, begin, accepts, delivered, end, H.AtEnd, last)
    requires c.pc.Reading? && c.pc.feed in f.feeds && c.cp == end && c.pc.upTo == views(0).value.end
    requires f.log == views(last).value && f.feeds[c.pc.feed].sourceEnd == f.log.end
    ensures F.MoveEnabled(f, c, F.ReadEnd)
  {
    assert Extends(views(0).value, views(last).value);
  }
}
