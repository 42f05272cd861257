/** The projection sink: any number of overlapping consumers of one stream feed a
    handler that checks checkpoints itself, by optimistic concurrency control
    (internal/projection/sink.go, driven by internal/eventstream/consumer.go). */
module ProjectionSink {
  import opened Stream

  type ConsumerId = nat

  datatype Pc = Starting | Idle | InSegment(seg: Segment, i: nat)

  /** `cp` is the checkpoint that the handler last reported, which may trail `pos`, the
      catalog's read position. */
  datatype Consumer = Consumer(cp: nat, pos: nat, pc: Pc)

  datatype State = State(
    id: Uuid,                  // the stream
    log: Log,
    types: Types,
    stored: nat,               // the handler's own checkpoint
    applied: seq<Envelope>,    // the events that the handler has applied, in order
    consumers: map<ConsumerId, Consumer>)

  datatype Move =
    | Start                    // CheckpointOffset
    | Receive(end: nat)        // Catalog.Consume calls back with [pos, end)
    | Handle(reported: bool)   // HandleEvent runs, and may report an error after applying
    | Fail                     // HandleEvent reports an error without applying
    | Accept                   // ConsumeSegment returns true
    | Crash

  datatype Step = Grow(log: Log) | Join(consumer: ConsumerId) | Act(consumer: ConsumerId, move: Move)

  /** The handler's half of the contract: it applies the event and moves its checkpoint
      past it, in one atomic change, only if the caller's checkpoint is its own.
      Otherwise it changes nothing. Either way it returns its checkpoint. */
  predicate Agrees(s: State, c: Consumer) { s.stored == c.cp }

  ghost predicate MoveEnabled(s: State, c: Consumer, m: Move) {
    match m
    case Start => c.pc.Starting?
    case Receive(end) => c.pc.Idle? && c.pos <= end <= s.log.end
    case Handle(_) => c.pc.InSegment? && c.pc.i < |c.pc.seg.envelopes|
    case Fail => c.pc.InSegment? && c.pc.i < |c.pc.seg.envelopes|
    case Accept => c.pc.InSegment? && c.pc.i >= |c.pc.seg.envelopes|
    case Crash => true
  }

  ghost function Moved(s: State, c: Consumer, m: Move): Consumer
    requires MoveEnabled(s, c, m)
  {
    match m
    case Start => Consumer(s.stored, s.stored, Idle)
    case Receive(end) => c.(pc := InSegment(Segment(s.id, c.pos, end, Slice(s.log.events, s.types, c.pos, end)), 0))
    case Handle(reported) =>
      var offset := c.pc.seg.envelopes[c.pc.i].offset;
      var next := if Agrees(s, c) then offset + 1 else s.stored;
      if reported && next == offset + 1 then c.(cp := next, pc := InSegment(c.pc.seg, c.pc.i + 1))
      else c.(pc := Starting)  // an error, or a conflict
    case Accept => c.(pos := c.pc.seg.end, pc := Idle)
    case _ => c.(pc := Starting)
  }

  ghost predicate Enabled(s: State, step: Step) {
    match step
    case Grow(log) => ValidLog(log) && Extends(s.log, log)
    case Join(id) => id !in s.consumers
    case Act(id, m) => id in s.consumers && MoveEnabled(s, s.consumers[id], m)
  }

  ghost function Apply(s: State, step: Step): State
    requires Enabled(s, step)
  {
    match step
    case Grow(log) => s.(log := log)
    case Join(id) => s.(consumers := s.consumers[id := Consumer(0, 0, Starting)])
    case Act(id, m) =>
      var c := s.consumers[id];
      var t := s.(consumers := s.consumers[id := Moved(s, c, m)]);
      if m.Handle? && Agrees(s, c) then
        var e := c.pc.seg.envelopes[c.pc.i];
        t.(stored := e.offset + 1, applied := s.applied + [e])
      else t
  }

  ghost predicate Init(s: State) {
    ValidLog(s.log) && s.stored == 0 && s.applied == [] && s.consumers == map[]
  }

  // ---- Invariant -----------------------------------------------------------------

  ghost predicate Exact(s: State) {
    && ValidLog(s.log) && s.stored <= s.log.end
    && s.applied == Slice(s.log.events, s.types, 0, s.stored)
  }

  /** No matching event lies between the checkpoint and the place that has been read. */
  ghost predicate Trails(s: State, cp: nat, pos: nat) {
    cp <= pos && Slice(s.log.events, s.types, cp, pos) == []
  }

  ghost predicate Coupled(s: State, c: Consumer) {
    match c.pc
    case Starting => true
    case Idle => c.pos <= s.log.end && Trails(s, c.cp, c.pos)
    case InSegment(seg, i) =>
      && Faithful(seg, s.log, s.types) && i <= |seg.envelopes| && c.pos == seg.begin
      && PositionAt(seg, i) <= seg.end && Trails(s, c.cp, PositionAt(seg, i))
  }

  ghost predicate Inv(s: State) {
    Exact(s) && forall id :: id in s.consumers ==> Coupled(s, s.consumers[id])
  }

  // ---- Proof -----------------------------------------------------------------------

  lemma {:induction false} TrailsGrow(s: State, log: Log, cp: nat, pos: nat)
    requires Extends(s.log, log) && pos <= s.log.end && Trails(s, cp, pos)
    ensures Trails(s.(log := log), cp, pos)
  {
    SliceExtends(s.log, log, s.types, cp, pos);
  }

  /** The next event from a checkpoint that trails is the segment's next event. */
  lemma {:induction false} NextFromCheckpoint(s: State, c: Consumer)
    requires ValidLog(s.log) && c.pc.InSegment? && Coupled(s, c) && c.pc.i < |c.pc.seg.envelopes|
    ensures var e := c.pc.seg.envelopes[c.pc.i];
      && c.cp <= e.offset < c.pc.seg.end
      && Slice(s.log.events, s.types, c.cp, e.offset + 1) == [e]
  {
    var seg, i := c.pc.seg, c.pc.i;
    SegmentAt(s.log, s.types, seg, i);
    var at := PositionAt(seg, i);
    SliceSplit(s.log.events, s.types, c.cp, at, seg.envelopes[i].offset + 1);
  }

  /** When the handler applies an event it has applied every matching event before it,
      and nothing else. */
  lemma {:induction false} HandleExact(s: State, id: ConsumerId, reported: bool)
    requires Inv(s) && Enabled(s, Act(id, Handle(reported)))
    ensures var t := Apply(s, Act(id, Handle(reported)));
      Exact(t) && s.stored <= t.stored && s.applied <= t.applied
  {
    var c := s.consumers[id];
    if Agrees(s, c) {
      NextFromCheckpoint(s, c);
      SliceSplit(s.log.events, s.types, 0, c.cp, c.pc.seg.envelopes[c.pc.i].offset + 1);
    }
  }

  /** A rejected event whose reply looks like success was already applied, by another
      consumer: it is the last event applied. */
  lemma {:induction false} DuplicateWasApplied(s: State, id: ConsumerId)
    requires Inv(s) && Enabled(s, Act(id, Handle(true)))
    requires var c := s.consumers[id]; !Agrees(s, c) && s.stored == c.pc.seg.envelopes[c.pc.i].offset + 1
    ensures var c := s.consumers[id];
      s.applied != [] && s.applied[|s.applied| - 1] == c.pc.seg.envelopes[c.pc.i]
  {
    var c := s.consumers[id];
    NextFromCheckpoint(s, c);
    SliceSplit(s.log.events, s.types, 0, c.cp, s.stored);
  }

  lemma {:induction false} AcceptKeeps(s: State, c: Consumer)
    requires ValidLog(s.log) && Coupled(s, c) && MoveEnabled(s, c, Accept)
    ensures Coupled(s, Moved(s, c, Accept))
  {
    var seg := c.pc.seg;
    SegmentAt(s.log, s.types, seg, c.pc.i);
    SliceSkip(s.log.events, s.types, c.cp, PositionAt(seg, c.pc.i), seg.end);
  }

  lemma {:induction false} MoveKeeps(s: State, c: Consumer, m: Move)
    requires Exact(s) && Coupled(s, c) && MoveEnabled(s, c, m)
    ensures Coupled(s, Moved(s, c, m))
  {
    match m
    case Start => SliceNone(s.log.events, s.types, s.stored, s.stored);
    case Handle(_) =>
      NextFromCheckpoint(s, c);
      var after := c.pc.seg.envelopes[c.pc.i].offset + 1;
      SliceNone(s.log.events, s.types, after, after);
    case Accept => AcceptKeeps(s, c);
    case _ =>
  }

  lemma {:induction false} GrowKeeps(s: State, log: Log, c: Consumer)
    requires ValidLog(log) && Extends(s.log, log) && Coupled(s, c)
    ensures Coupled(s.(log := log), c)
  {
    if c.pc.Idle? {
      TrailsGrow(s, log, c.cp, c.pos);
    } else if c.pc.InSegment? {
      SliceExtends(s.log, log, s.types, c.pc.seg.begin, c.pc.seg.end);
      TrailsGrow(s, log, c.cp, PositionAt(c.pc.seg, c.pc.i));
    }
  }

  lemma {:induction false} StepExact(s: State, step: Step)
    requires Inv(s) && Enabled(s, step)
    ensures Exact(Apply(s, step))
    ensures s.stored <= Apply(s, step).stored && s.applied <= Apply(s, step).applied
  {
    if step.Grow? {
      SliceExtends(s.log, step.log, s.types, 0, s.stored);
    } else if step.Act? && step.move.Handle? {
      HandleExact(s, step.consumer, step.move.reported);
    }
  }

  lemma {:induction false} StepKeeps(s: State, step: Step)
    requires Inv(s) && Enabled(s, step)
    ensures Inv(Apply(s, step))
  {
    var t := Apply(s, step);
    StepExact(s, step);
    forall id | id in t.consumers ensures Coupled(t, t.consumers[id]) {
      if step.Grow? {
        GrowKeeps(s, step.log, s.consumers[id]);
      } else if step.Act? && step.consumer == id {
        MoveKeeps(s, s.consumers[id], step.move);
      }
    }
  }

  // ---- Runs --------------------------------------------------------------------------

  ghost predicate Run(s: State, steps: seq<Step>)
    decreases |steps|, 0
  {
    steps == [] || (Run(s, steps[..|steps| - 1]) && Enabled(StateAfter(s, steps[..|steps| - 1]), steps[|steps| - 1]))
  }

  ghost function StateAfter(s: State, steps: seq<Step>): State
    requires Run(s, steps)
    decreases |steps|, 1
  {
    if steps == [] then s else Apply(StateAfter(s, steps[..|steps| - 1]), steps[|steps| - 1])
  }

  lemma {:induction false} RunKeeps(s: State, steps: seq<Step>)
    requires Inv(s) && Run(s, steps)
    ensures var t := StateAfter(s, steps);
      Inv(t) && s.stored <= t.stored && s.applied <= t.applied
  {
    if steps != [] {
      var init, last := steps[..|steps| - 1], steps[|steps| - 1];
      RunKeeps(s, init);
      StepKeeps(StateAfter(s, init), last);
      StepExact(StateAfter(s, init), last);
    }
  }

  /** Whatever overlaps, fails, or applies while reporting failure, the handler has
      applied exactly the stream's matching events below its checkpoint, once each and
      in offset order; and no consumer has read past a matching event that its
      checkpoint does not cover. */
  lemma {:induction false} AppliedExactlyOnce(s: State, steps: seq<Step>)
    requires Init(s) && Run(s, steps)
    ensures var t := StateAfter(s, steps);
      && t.applied == Slice(t.log.events, t.types, 0, t.stored)
      && forall id :: id in t.consumers && t.consumers[id].pc.Idle? ==>
           Slice(t.log.events, t.types, t.consumers[id].cp, t.consumers[id].pos) == []
  {
    SliceNone(s.log.events, s.types, 0, 0);
    RunKeeps(s, steps);
  }

  // ---- A consumer that is left alone ----------------------------------------------------

  /** Nobody but consumer `id` calls the handler. */
  predicate Undisturbed(steps: seq<Step>, id: ConsumerId) {
    forall k :: 0 <= k < |steps| && steps[k].Act? && steps[k].move.Handle? ==> steps[k].consumer == id
  }

  ghost predicate InAgreement(s: State, id: ConsumerId) {
    id in s.consumers && (s.consumers[id].pc.Starting? || s.consumers[id].cp == s.stored)
  }

  lemma {:induction false} StepAgrees(s: State, step: Step, id: ConsumerId)
    requires Enabled(s, step) && InAgreement(s, id)
    requires step.Act? && step.move.Handle? ==> step.consumer == id
    ensures InAgreement(Apply(s, step), id)
  {
  }

  /** A consumer's checkpoint is out of date only if another consumer called the handler
      since it started. Left alone, every event that it passes on is applied, and between
      segments every matching event below its read position has been. */
  lemma {:induction false} RejectedOnlyForOthers(s: State, steps: seq<Step>, id: ConsumerId)
    requires Inv(s) && Run(s, steps) && InAgreement(s, id) && Undisturbed(steps, id)
    ensures var t := StateAfter(s, steps);
      && InAgreement(t, id)
      && (Enabled(t, Act(id, Handle(true))) ==>
            var c, u := t.consumers[id], Apply(t, Act(id, Handle(true)));
            && u.applied == t.applied + [c.pc.seg.envelopes[c.pc.i]]
            && u.consumers[id].pc == InSegment(c.pc.seg, c.pc.i + 1))
      && (t.consumers[id].pc.Idle? ==> t.applied == Slice(t.log.events, t.types, 0, t.consumers[id].pos))
  {
    RunKeeps(s, steps);
    var t := StateAfter(s, steps);
    if steps != [] {
      var init := steps[..|steps| - 1];
      assert forall k :: 0 <= k < |init| ==> init[k] == steps[k];
      RejectedOnlyForOthers(s, init, id);
      StepAgrees(StateAfter(s, init), steps[|steps| - 1], id);
    }
    if t.consumers[id].pc.Idle? {
      assert Coupled(t, t.consumers[id]);
      SliceSkip(t.log.events, t.types, 0, t.stored, t.consumers[id].pos);
    }
  }

  /** After a conflict, a failure or a crash, a consumer goes on from the handler's own
      checkpoint. */
  lemma {:induction false} ResumesAtStored(s: State, id: ConsumerId, m: Move)
    requires Enabled(s, Act(id, m))
    requires
      || m.Fail? || m.Crash? || m == Handle(false)
      || (m.Handle? && !Agrees(s, s.consumers[id]) &&
          s.stored != s.consumers[id].pc.seg.envelopes[s.consumers[id].pc.i].offset + 1)
    ensures var t := Apply(s, Act(id, m));
      && Enabled(t, Act(id, Start))
      && Apply(t, Act(id, Start)).consumers[id] == Consumer(t.stored, t.stored, Idle)
      && (!m.Handle? || !Agrees(s, s.consumers[id]) ==> t.stored == s.stored && t.applied == s.applied)
  {
  }

  // ---- ConsumeSegment, statement by statement --------------------------------------------

  /** How a call to ConsumeSegment ends: after the last event, because the handler answered
      with another checkpoint than the one after the event, or with an error. */
  datatype Ending = Consumed | Conflicted | Errored

  /** A call to the handler: the event, and the checkpoint that goes with it. */
  datatype Call = Call(event: Envelope, checkpoint: nat)

  /** The checkpoint that goes with the k-th event of a segment: just after the one before. */
  function CheckpointAt(seg: Segment, begin: nat, k: nat): nat
    requires k <= |seg.envelopes|
  {
    if k == 0 then begin else seg.envelopes[k - 1].offset + 1
  }

  /** The handler answered the k-th call as it does when it has applied the event. */
  predicate Accepts(seg: Segment, replies: nat -> Option<nat>, k: nat)
    requires k < |seg.envelopes|
  {
    replies(k) == Some(seg.envelopes[k].offset + 1)
  }

  /** ConsumeSegment. The handler's k-th answer is replies(k), None if it fails. Every event is
      passed on in order, with the checkpoint after the one before it, until the first one
      that the handler does not accept. */
  method ConsumeSegment(begin: nat, seg: Segment, replies: nat -> Option<nat>)
    returns (cp: nat, ending: Ending, calls: seq<Call>)
    ensures |calls| <= |seg.envelopes|
    ensures forall k :: 0 <= k < |calls| ==> calls[k] == Call(seg.envelopes[k], CheckpointAt(seg, begin, k))
    ensures forall k :: 0 <= k < |calls| - 1 ==> Accepts(seg, replies, k)
    ensures ending.Consumed? ==>
      |calls| == |seg.envelopes| && forall k :: 0 <= k < |seg.envelopes| ==> Accepts(seg, replies, k)
    ensures ending.Errored? ==> calls != [] && replies(|calls| - 1).None?
    ensures ending.Conflicted? ==> calls != [] && replies(|calls| - 1).Some? && !Accepts(seg, replies, |calls| - 1)
    ensures cp == CheckpointAt(seg, begin, if ending.Consumed? then |calls| else |calls| - 1)
  {
    cp, calls := begin, [];
    for i := 0 to |seg.envelopes|
      invariant |calls| == i && cp == CheckpointAt(seg, begin, i)
      invariant forall k :: 0 <= k < i ==> calls[k] == Call(seg.envelopes[k], CheckpointAt(seg, begin, k))
      invariant forall k :: 0 <= k < i ==> Accepts(seg, replies, k)
    {
      var offset := seg.envelopes[i].offset;
      calls := calls + [Call(seg.envelopes[i], cp)];
      var next := replies(i);
      if next.None? {
        return cp, Errored, calls;
      }
      if next.value != offset + 1 {
        return cp, Conflicted, calls;
      }
      cp := next.value;
    }
    ending := Consumed;
  }
}
