/** The process sink: any number of overlapping consumers of one stream dispatch to
    one handler through a compare-and-set on a locked checkpoint row
    (internal/process/sink.go, driven by internal/eventstream/consumer.go). */
module ProcessSink {
  import opened Stream

  type ConsumerId = nat

  /** Where a consumer stands: about to load its checkpoint, waiting for a segment, in
      ConsumeSegment before envelope i, or there with the checkpoint row locked. Once
      i passes the last envelope, the rest of the segment's range is consumed. */
  datatype Pc =
    | Starting
    | Idle
    | InSegment(seg: Segment, i: nat)
    | Locked(seg: Segment, i: nat, actual: nat)

  /** `cp` is the sink's checkpoint as the consumer knows it; `pos` is the catalog's
      read position, where the next segment begins. */
  datatype Consumer = Consumer(cp: nat, pos: nat, pc: Pc)

  datatype State = State(
    id: Uuid,                     // the stream
    log: Log,
    types: Types,                 // the event types routed to the handler
    checkpoint: nat,              // the committed checkpoint row (0 if absent)
    dispatched: seq<Envelope>,    // the committed dispatches, in commit order
    lock: Option<ConsumerId>,     // the transaction that holds the row
    consumers: map<ConsumerId, Consumer>)

  datatype Move =
    | Start                       // CheckpointOffset
    | Receive(end: nat)           // Catalog.Consume calls back with [pos, end)
    | Skip                        // an event below cp
    | Lock                        // the upsert returns the actual checkpoint
    | Conflict                    // actual != cp
    | Fail                        // the transaction is rolled back
    | Commit(reported: bool)      // the commit happens, and may be reported as a failure
    | Accept                      // ConsumeSegment returns true
    | Crash                       // the consumer stops; an open transaction rolls back

  datatype Step = Grow(log: Log) | Join(consumer: ConsumerId) | Act(consumer: ConsumerId, move: Move)

  predicate HasWork(c: Consumer)
    requires c.pc.InSegment? || c.pc.Locked?
  {
    if c.pc.i < |c.pc.seg.envelopes| then c.pc.seg.envelopes[c.pc.i].offset >= c.cp else c.cp < c.pc.seg.end
  }

  /** The checkpoint that the transaction in progress writes. */
  function Next(c: Consumer): nat
    requires c.pc.Locked?
  {
    if c.pc.i < |c.pc.seg.envelopes| then c.pc.seg.envelopes[c.pc.i].offset + 1 else c.pc.seg.end
  }

  ghost predicate MoveEnabled(s: State, id: ConsumerId, c: Consumer, m: Move) {
    match m
    case Start => c.pc.Starting?
    case Receive(end) => c.pc.Idle? && c.pos <= end <= s.log.end
    case Skip => c.pc.InSegment? && c.pc.i < |c.pc.seg.envelopes| && !HasWork(c)
    case Lock => c.pc.InSegment? && HasWork(c) && s.lock.None?
    case Conflict => c.pc.Locked? && c.pc.actual != c.cp
    case Fail => c.pc.Locked?
    case Commit(_) => c.pc.Locked? && c.pc.actual == c.cp
    case Accept => c.pc.InSegment? && c.pc.i >= |c.pc.seg.envelopes| && !HasWork(c)
    case Crash => true
  }

  ghost function Moved(s: State, id: ConsumerId, c: Consumer, m: Move): Consumer
    requires MoveEnabled(s, id, c, m)
  {
    match m
    case Start => Consumer(s.checkpoint, s.checkpoint, Idle)
    case Receive(end) => c.(pc := InSegment(Segment(s.id, c.pos, end, Slice(s.log.events, s.types, c.pos, end)), 0))
    case Skip => c.(pc := InSegment(c.pc.seg, c.pc.i + 1))
    case Lock => c.(pc := Locked(c.pc.seg, c.pc.i, s.checkpoint))
    case Commit(reported) =>
      if reported then c.(cp := Next(c), pc := InSegment(c.pc.seg, c.pc.i + 1)) else c.(pc := Starting)
    case Accept => c.(pos := c.pc.seg.end, pc := Idle)
    case _ => c.(pc := Starting)
  }

  ghost predicate Enabled(s: State, step: Step) {
    match step
    case Grow(log) => ValidLog(log) && Extends(s.log, log)
    case Join(id) => id !in s.consumers
    case Act(id, m) => id in s.consumers && MoveEnabled(s, id, s.consumers[id], m)
  }

  ghost function Apply(s: State, step: Step): State
    requires Enabled(s, step)
  {
    match step
    case Grow(log) => s.(log := log)
    case Join(id) => s.(consumers := s.consumers[id := Consumer(0, 0, Starting)])
    case Act(id, m) =>
      var c := s.consumers[id];
      var t := s.(
        consumers := s.consumers[id := Moved(s, id, c, m)],
        lock := if m.Lock? then Some(id) else if s.lock == Some(id) then None else s.lock);
      if m.Commit? then
        t.(checkpoint := Next(c),
           dispatched :=
             if c.pc.i < |c.pc.seg.envelopes| then s.dispatched + [c.pc.seg.envelopes[c.pc.i]] else s.dispatched)
      else t
  }

  ghost predicate Init(s: State) {
    ValidLog(s.log) && s.checkpoint == 0 && s.dispatched == [] && s.lock.None? && s.consumers == map[]
  }

  // ---- Invariant -----------------------------------------------------------------

  /** The committed dispatches are exactly the matching events below the checkpoint. */
  ghost predicate Exact(s: State) {
    && ValidLog(s.log) && s.checkpoint <= s.log.end
    && s.dispatched == Slice(s.log.events, s.types, 0, s.checkpoint)
  }

  /** The coupling of the sink's checkpoint to the catalog's read position: equal
      between segments, and just after the last consumed event within one. Once the
      whole segment has been consumed, i is past the end. */
  ghost predicate Coupled(s: State, c: Consumer) {
    match c.pc
    case Starting => true
    case Idle => c.cp == c.pos <= s.log.end
    case _ =>
      && Faithful(c.pc.seg, s.log, s.types) && c.pos == c.pc.seg.begin
      && if c.pc.i <= |c.pc.seg.envelopes| then c.cp == PositionAt(c.pc.seg, c.pc.i)
         else c.pc.InSegment? && c.cp == c.pc.seg.end
  }

  ghost predicate ConsumerOk(s: State, id: ConsumerId, c: Consumer) {
    && Coupled(s, c)
    && (c.pc.Locked? <==> s.lock == Some(id))
    && (c.pc.Locked? ==> HasWork(c) && c.pc.actual == s.checkpoint)
  }

  ghost predicate Inv(s: State) {
    && Exact(s)
    && (s.lock.Some? ==> s.lock.value in s.consumers)
    && forall id :: id in s.consumers ==> ConsumerOk(s, id, s.consumers[id])
  }

  // ---- Proof -----------------------------------------------------------------------

  /** A committed transaction moves the checkpoint forward over exactly the event that
      it dispatched, or over a range with nothing to dispatch. */
  lemma {:induction false} CommitExact(s: State, id: ConsumerId, reported: bool)
    requires Inv(s) && Enabled(s, Act(id, Commit(reported)))
    ensures var t := Apply(s, Act(id, Commit(reported)));
      Exact(t) && s.checkpoint < t.checkpoint && s.dispatched <= t.dispatched
  {
    var c := s.consumers[id];
    var seg, i := c.pc.seg, c.pc.i;
    SegmentAt(s.log, s.types, seg, i);
    if i < |seg.envelopes| {
      SliceSplit(s.log.events, s.types, 0, c.cp, Next(c));
    } else {
      SliceSkip(s.log.events, s.types, 0, c.cp, Next(c));
    }
  }

  lemma {:induction false} MoveKeeps(s: State, id: ConsumerId, m: Move)
    requires Inv(s) && Enabled(s, Act(id, m))
    ensures var t := Apply(s, Act(id, m)); ConsumerOk(t, id, t.consumers[id])
  {
    var c := s.consumers[id];
    if c.pc.InSegment? || c.pc.Locked? {
      if c.pc.i <= |c.pc.seg.envelopes| {
        SegmentAt(s.log, s.types, c.pc.seg, c.pc.i);
      }
    }
  }

  lemma {:induction false} GrowKeeps(s: State, log: Log, c: Consumer)
    requires ValidLog(s.log) && ValidLog(log) && Extends(s.log, log) && Coupled(s, c)
    ensures Coupled(s.(log := log), c)
  {
    if c.pc.InSegment? || c.pc.Locked? {
      SliceExtends(s.log, log, s.types, c.pc.seg.begin, c.pc.seg.end);
    }
  }

  lemma {:induction false} StepExact(s: State, step: Step)
    requires Inv(s) && Enabled(s, step)
    ensures Exact(Apply(s, step))
    ensures s.checkpoint <= Apply(s, step).checkpoint && s.dispatched <= Apply(s, step).dispatched
  {
    if step.Grow? {
      SliceExtends(s.log, step.log, s.types, 0, s.checkpoint);
    } else if step.Act? && step.move.Commit? {
      CommitExact(s, step.consumer, step.move.reported);
    }
  }

  /** Another consumer's move changes this one's view of neither its segment nor the
      lock; only the holder of the lock can move the checkpoint. */
  lemma {:induction false} OthersKeep(s: State, step: Step, id: ConsumerId)
    requires Inv(s) && Enabled(s, step) && id in s.consumers && !(step.Act? && step.consumer == id)
    ensures var t := Apply(s, step); id in t.consumers && ConsumerOk(t, id, t.consumers[id])
  {
    if step.Grow? {
      GrowKeeps(s, step.log, s.consumers[id]);
    }
  }

  lemma {:induction false} StepKeeps(s: State, step: Step)
    requires Inv(s) && Enabled(s, step)
    ensures Inv(Apply(s, step))
  {
    var t := Apply(s, step);
    StepExact(s, step);
    forall id | id in t.consumers ensures ConsumerOk(t, id, t.consumers[id]) {
      if step.Act? && step.consumer == id {
        MoveKeeps(s, id, step.move);
      } else if id in s.consumers {
        OthersKeep(s, step, id);
      }
    }
  }

  // ---- Runs --------------------------------------------------------------------------

  ghost predicate Run(s: State, steps: seq<Step>)
    decreases |steps|, 0
  {
    steps == [] || (Run(s, steps[..|steps| - 1]) && Enabled(StateAfter(s, steps[..|steps| - 1]), steps[|steps| - 1]))
  }

  ghost function StateAfter(s: State, steps: seq<Step>): State
    requires Run(s, steps)
    decreases |steps|, 1
  {
    if steps == [] then s else Apply(StateAfter(s, steps[..|steps| - 1]), steps[|steps| - 1])
  }

  /** In every run from a state that satisfies the invariant, the checkpoint never goes
      back and no committed dispatch is ever undone. */
  lemma {:induction false} RunKeeps(s: State, steps: seq<Step>)
    requires Inv(s) && Run(s, steps)
    ensures var t := StateAfter(s, steps);
      Inv(t) && s.checkpoint <= t.checkpoint && s.dispatched <= t.dispatched
  {
    if steps != [] {
      var init, last := steps[..|steps| - 1], steps[|steps| - 1];
      RunKeeps(s, init);
      StepKeeps(StateAfter(s, init), last);
      StepExact(StateAfter(s, init), last);
    }
  }

  /** Whatever overlaps, rolls back, or commits while reporting failure, the committed
      dispatches are the stream's matching events below the checkpoint: once each, in
      offset order. Between segments every consumer's checkpoint is its read position,
      so the sink never skips an event that it is given. */
  lemma {:induction false} DispatchedExactlyOnce(s: State, steps: seq<Step>)
    requires Init(s) && Run(s, steps)
    ensures var t := StateAfter(s, steps);
      && t.dispatched == Slice(t.log.events, t.types, 0, t.checkpoint)
      && forall id :: id in t.consumers ==>
           && (t.consumers[id].pc.Idle? ==> t.consumers[id].cp == t.consumers[id].pos)
           && !MoveEnabled(t, id, t.consumers[id], Skip)
  {
    SliceNone(s.log.events, s.types, 0, 0);
    RunKeeps(s, steps);
    var t := StateAfter(s, steps);
    forall id | id in t.consumers ensures !MoveEnabled(t, id, t.consumers[id], Skip) {
      var c := t.consumers[id];
      if c.pc.InSegment? && c.pc.i < |c.pc.seg.envelopes| {
        SegmentAt(t.log, t.types, c.pc.seg, c.pc.i);
      }
    }
  }

  // ---- A consumer that is left alone ----------------------------------------------------

  /** Nobody but consumer `id` commits anything. */
  predicate Undisturbed(steps: seq<Step>, id: ConsumerId) {
    forall k :: 0 <= k < |steps| && steps[k].Act? && steps[k].move.Commit? ==> steps[k].consumer == id
  }

  ghost predicate InAgreement(s: State, id: ConsumerId) {
    id in s.consumers && (s.consumers[id].pc.Starting? || s.consumers[id].cp == s.checkpoint)
  }

  lemma {:induction false} StepAgrees(s: State, step: Step, id: ConsumerId)
    requires Enabled(s, step) && InAgreement(s, id)
    requires step.Act? && step.move.Commit? ==> step.consumer == id
    ensures InAgreement(Apply(s, step), id)
  {
  }

  /** A consumer loses a race only to another one that committed since it started. Left
      alone it never meets a conflict, and whatever it has accepted is committed: between
      segments the checkpoint is its read position, and every matching event below has
      been dispatched. */
  lemma {:induction false} ConflictsOnlyWithOthers(s: State, steps: seq<Step>, id: ConsumerId)
    requires Inv(s) && Run(s, steps) && InAgreement(s, id) && Undisturbed(steps, id)
    ensures var t := StateAfter(s, steps);
      && InAgreement(t, id) && !MoveEnabled(t, id, t.consumers[id], Conflict)
      && (t.consumers[id].pc.Idle? ==>
            && t.checkpoint == t.consumers[id].pos
            && t.dispatched == Slice(t.log.events, t.types, 0, t.consumers[id].pos))
  {
    RunKeeps(s, steps);
    if steps != [] {
      var init := steps[..|steps| - 1];
      assert forall k :: 0 <= k < |init| ==> init[k] == steps[k];
      ConflictsOnlyWithOthers(s, init, id);
      StepAgrees(StateAfter(s, init), steps[|steps| - 1], id);
    }
    assert ConsumerOk(StateAfter(s, steps), id, StateAfter(s, steps).consumers[id]);
  }

  /** After a conflict, a failure, a crash or a commit that was reported as a failure, a
      consumer goes on from what has been committed, with nothing in between. */
  lemma {:induction false} ResumesAtCheckpoint(s: State, id: ConsumerId, m: Move)
    requires Inv(s) && Enabled(s, Act(id, m))
    requires m in {Conflict, Fail, Crash, Commit(false)}
    ensures var t := Apply(s, Act(id, m));
      && Enabled(t, Act(id, Start)) && t.lock != Some(id)
      && Apply(t, Act(id, Start)).consumers[id] == Consumer(t.checkpoint, t.checkpoint, Idle)
      && (!m.Commit? ==> t.checkpoint == s.checkpoint && t.dispatched == s.dispatched)
  {
  }

  // ---- ConsumeSegment, statement by statement --------------------------------------------

  /** A transaction that was committed: the checkpoint that it wrote, and the event that it
      dispatched, if any. */
  datatype Write = Write(next: nat, event: Option<Envelope>)

  /** The checkpoint once the transactions have committed. */
  function CheckpointAfter(cp: nat, writes: seq<Write>): nat {
    if writes == [] then cp else writes[|writes| - 1].next
  }

  /** The events that the transactions dispatched. */
  function EventsIn(writes: seq<Write>): seq<Envelope> {
    if writes == [] then []
    else
      var before, last := EventsIn(writes[..|writes| - 1]), writes[|writes| - 1];
      if last.event.Some? then before + [last.event.value] else before
  }

  /** Each transaction found the checkpoint that the one before it wrote, and moved it past
      the event that it dispatched, or to the end of the segment. */
  ghost predicate WritesOk(seg: Segment, cp: nat, finds: nat -> Option<nat>, writes: seq<Write>) {
    forall k :: 0 <= k < |writes| ==>
      && finds(k) == Some(CheckpointAfter(cp, writes[..k])) && CheckpointAfter(cp, writes[..k]) < writes[k].next
      && writes[k].next == match writes[k].event case Some(e) => e.offset + 1 case None => seg.end
  }

  lemma {:induction false} OneWrite(seg: Segment, cp: nat, finds: nat -> Option<nat>, writes: seq<Write>, w: Write)
    requires WritesOk(seg, cp, finds, writes) && finds(|writes|) == Some(CheckpointAfter(cp, writes))
    requires CheckpointAfter(cp, writes) < w.next
    requires w.next == match w.event case Some(e) => e.offset + 1 case None => seg.end
    ensures WritesOk(seg, cp, finds, writes + [w]) && CheckpointAfter(cp, writes + [w]) == w.next
    ensures EventsIn(writes + [w]) == EventsIn(writes) + (if w.event.Some? then [w.event.value] else [])
  {
    var more := writes + [w];
    assert more[..|writes|] == writes;
    forall k | 0 <= k < |writes| ensures more[..k] == writes[..k] && more[k] == writes[k] {
    }
  }

  /** How a call to ConsumeSegment ends: at the end of the segment, because a transaction
      found another checkpoint, or because one failed. */
  datatype Ending = Consumed | Conflicted | Errored

  /** The events below index i, as far as they are due: those at or after the checkpoint. */
  function DueBefore(seg: Segment, cp: nat, i: nat): seq<Envelope>
    requires i <= |seg.envelopes|
  {
    Slice(seg.envelopes[..i], Every, cp, seg.end)
  }

  lemma {:induction false} DueNext(seg: Segment, cp: nat, i: nat)
    requires i < |seg.envelopes| && Within(seg.envelopes, seg.begin, seg.end)
    ensures DueBefore(seg, cp, i + 1) ==
      DueBefore(seg, cp, i) + (if cp <= seg.envelopes[i].offset then [seg.envelopes[i]] else [])
  {
    assert seg.envelopes[..i + 1][..i] == seg.envelopes[..i];
  }

  /** What is due below an index is a first part of what is due in all. */
  lemma {:induction false} DuePrefix(seg: Segment, cp: nat, i: nat)
    requires i <= |seg.envelopes|
    ensures DueBefore(seg, cp, i) <= Slice(seg.envelopes, Every, cp, seg.end)
  {
    assert seg.envelopes == seg.envelopes[..i] + seg.envelopes[i..];
    SliceConcat(seg.envelopes[..i], seg.envelopes[i..], Every, cp, seg.end);
  }

  /** ConsumeSegment. The k-th transaction finds the checkpoint finds(k), or fails if there is
      none; one that finds another checkpoint than its own changes nothing. Every event at or
      after the checkpoint is dispatched, once and in order, as long as the transactions find
      what they expect, and the first one that does not is the last. */
  method ConsumeSegment(begin: nat, seg: Segment, finds: nat -> Option<nat>)
    returns (cp: nat, ending: Ending, writes: seq<Write>)
    requires Sorted(seg.envelopes) && Within(seg.envelopes, seg.begin, seg.end)
    ensures WritesOk(seg, begin, finds, writes)
    ensures EventsIn(writes) <= Slice(seg.envelopes, Every, begin, seg.end)
    ensures ending.Consumed? ==>
      && EventsIn(writes) == Slice(seg.envelopes, Every, begin, seg.end)
      && cp == CheckpointAfter(begin, writes) == if begin < seg.end then seg.end else begin
    ensures ending.Conflicted? ==> finds(|writes|).Some? && finds(|writes|) != Some(CheckpointAfter(begin, writes))
    ensures ending.Errored? ==> finds(|writes|).None? && cp == CheckpointAfter(begin, writes)
  {
    cp, writes := begin, [];
    for i := 0 to |seg.envelopes|
      // "true ==" keeps the verifier from taking the predicate apart at every turn.
      invariant cp == CheckpointAfter(begin, writes) && true == WritesOk(seg, begin, finds, writes)
      invariant EventsIn(writes) == DueBefore(seg, begin, i)
      invariant cp == begin || (0 < i && begin < cp == seg.envelopes[i - 1].offset + 1)
    {
      var env := seg.envelopes[i];
      assert 0 < i ==> seg.envelopes[i - 1].offset < env.offset;
      DueNext(seg, begin, i);
      DuePrefix(seg, begin, i);
      if env.offset < cp {
        continue;
      }
      if finds(|writes|).None? {
        return cp, Errored, writes;
      }
      if finds(|writes|) != Some(cp) {
        return cp, Conflicted, writes;
      }
      OneWrite(seg, begin, finds, writes, Write(env.offset + 1, Some(env)));
      writes := writes + [Write(env.offset + 1, Some(env))];
      cp := env.offset + 1;
    }
    assert seg.envelopes[..|seg.envelopes|] == seg.envelopes;
    if cp < seg.end {
      if finds(|writes|).None? {
        return cp, Errored, writes;
      }
      if finds(|writes|) != Some(cp) {
        return finds(|writes|).value, Conflicted, writes;
      }
      OneWrite(seg, begin, finds, writes, Write(seg.end, None));
      writes := writes + [Write(seg.end, None)];
      cp := seg.end;
    }
    ending := Consumed;
  }

  /** A commit of the transition system is one such transaction: the next one that the
      consumer's segment calls for. */
  lemma {:induction false} CommitIsWrite(s: State, id: ConsumerId, reported: bool)
    requires Inv(s) && Enabled(s, Act(id, Commit(reported)))
    ensures var c, t := s.consumers[id], Apply(s, Act(id, Commit(reported)));
      var event := if c.pc.i < |c.pc.seg.envelopes| then Some(c.pc.seg.envelopes[c.pc.i]) else None;
      && s.checkpoint == c.cp && WritesOk(c.pc.seg, c.cp, _ => Some(s.checkpoint), [Write(t.checkpoint, event)])
      && t.dispatched == s.dispatched + EventsIn([Write(t.checkpoint, event)])
  {
    var c, t := s.consumers[id], Apply(s, Act(id, Commit(reported)));
    CommitExact(s, id, reported);
    var event := if c.pc.i < |c.pc.seg.envelopes| then Some(c.pc.seg.envelopes[c.pc.i]) else None;
    OneWrite(c.pc.seg, c.cp, _ => Some(s.checkpoint), [], Write(t.checkpoint, event));
    assert [] + [Write(t.checkpoint, event)] == [Write(t.checkpoint, event)];
  }
}
