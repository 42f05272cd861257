/** Command handling as a system of concurrent transactions
    (internal/messagepump/pump.go, internal/aggregate/commandpump.go,
    internal/integration/commandpump.go, and the SQL functions they call). */
module CommandHandling {
  import opened Stream
  import opened Aggregates

  datatype Resource = CommandRow(command: CommandId) | InstanceRow(instance: InstanceId) | StreamRow(stream: Uuid)

  /** What a transaction has written before it commits. Postpone follows ErrFailed or
      ErrBusy. */
  datatype Outcome =
    | Postpone(busy: bool)
    | Complete(stream: Uuid, base: nat, events: seq<Event>, snapshot: Option<Blob>)

  /** `hold` is the aggregate instance that was locked, with its `row`, which was
      `created` by this transaction if there was none. */
  datatype Tx =
    | Idle
    | Open(command: CommandId, failures: nat, hold: Option<InstanceId>, row: Instance, created: bool,
           root: Option<Root>, outcome: Option<Outcome>)

  datatype State = State(
    db: Db,
    done: seq<Completion>,              // the commands handled so far, in commit order
    known: set<CommandId>,              // the commands ever enqueued
    locks: map<Resource, WorkerId>,
    txs: map<WorkerId, Tx>)

  datatype Move =
    | Acquire(command: CommandId)                 // AcquireCommandDelivery
    | Fail                                        // ErrFailed
    | Busy                                        // ErrBusy
    | Lock(instance: InstanceId)                  // tryLockInstance or tryCreateInstance
    | LoadRoot                                    // the rest of loadInstance
    | Record(events: seq<Event>, stream: Uuid)    // the handler succeeds, and complete_... runs
    | Commit                                      // also when the commit is reported as a failure
    | Rollback

  datatype Step = Enqueue(command: CommandId) | Begin(worker: WorkerId) | Act(worker: WorkerId, move: Move)

  const BLANK := Instance(None, None)

  ghost predicate MoveEnabled(hs: Handlers, s: State, tx: Tx, m: Move) {
    match m
    case Acquire(c) => tx.Idle? && c in s.db.commands && CommandRow(c) !in s.locks
    case Fail => tx.Open? && tx.outcome.None?
    case Busy => tx.Open? && tx.outcome.None? && tx.hold.None?
    case Lock(i) => tx.Open? && tx.outcome.None? && tx.hold.None? && InstanceRow(i) !in s.locks
    case LoadRoot =>
      && tx.Open? && tx.outcome.None? && tx.hold.Some? && tx.root.None?
      && Load(hs(tx.hold.value), s.db, tx.hold.value, tx.row).Some?
    case Record(events, stream) =>
      && tx.Open? && tx.outcome.None?
      && (tx.hold.Some? ==> tx.root.Some? && Fold(hs(tx.hold.value), tx.root, events).Some?)
      && (events != [] ==>
            && StreamRow(stream) !in s.locks
            && (tx.row.stream.Some? ==> stream == tx.row.stream.value))
    case Commit => tx.Open? && tx.outcome.Some?
    case Rollback => tx.Open?
  }

  ghost function Moved(hs: Handlers, s: State, tx: Tx, m: Move): Tx
    requires MoveEnabled(hs, s, tx, m)
  {
    match m
    case Acquire(c) => Open(c, s.db.commands[c], None, BLANK, false, None, None)
    case Fail => tx.(outcome := Some(Postpone(false)))
    case Busy => tx.(outcome := Some(Postpone(true)))
    case Lock(i) => tx.(hold := Some(i), row := RowOf(s.db, i), created := i !in s.db.instances)
    case LoadRoot => tx.(root := Load(hs(tx.hold.value), s.db, tx.hold.value, tx.row))
    case Record(events, stream) =>
      var snapshot :=
        if tx.hold.Some? then hs(tx.hold.value).marshal(Fold(hs(tx.hold.value), tx.root, events).value) else None;
      tx.(outcome := Some(Complete(stream, StreamOf(s.db, stream).next, events, snapshot)))
    case _ => Idle
  }

  function CompletionOf(tx: Tx): Completion
    requires tx.Open? && tx.outcome.Some? && tx.outcome.value.Complete?
  {
    Completion(tx.command, tx.hold, tx.outcome.value.stream, tx.outcome.value.events)
  }

  /** The instance's row after complete_with_events. */
  function Bound(row: Instance, stream: Uuid, last: nat, snapshot: Option<Blob>): Instance {
    Instance(Some(stream), if snapshot.Some? then Some(Snapshot(last, snapshot.value)) else row.snapshot)
  }

  /** The tables once the transaction has committed. */
  function Committed(db: Db, tx: Tx): Db
    requires tx.Open? && tx.outcome.Some?
  {
    match tx.outcome.value
    case Postpone(busy) =>
      db.(commands := db.commands[tx.command := if busy then tx.failures else tx.failures + 1],
          instances := if tx.created && tx.hold.Some? then db.instances[tx.hold.value := BLANK] else db.instances)
    case Complete(stream, base, events, snapshot) =>
      if events == [] then
        db.(commands := db.commands - {tx.command},
            instances := if tx.hold.Some? && tx.row.stream.None? then db.instances - {tx.hold.value} else db.instances)
      else
        db.(commands := db.commands - {tx.command},
            streams := db.streams[stream :=
              EventStream(base + |events|, StreamOf(db, stream).rows + Batch(CompletionOf(tx), base))],
            instances :=
              if tx.hold.Some? then
                db.instances[tx.hold.value := Bound(tx.row, stream, base + |events| - 1, snapshot)]
              else db.instances)
  }

  ghost predicate Enabled(hs: Handlers, s: State, step: Step) {
    match step
    case Enqueue(c) => c !in s.known
    case Begin(w) => w !in s.txs
    case Act(w, m) => w in s.txs && MoveEnabled(hs, s, s.txs[w], m)
  }

  ghost function Taken(s: State, w: WorkerId, m: Move): map<Resource, WorkerId> {
    match m
    case Acquire(c) => s.locks[CommandRow(c) := w]
    case Lock(i) => s.locks[InstanceRow(i) := w]
    case Record(events, stream) => if events != [] then s.locks[StreamRow(stream) := w] else s.locks
    case Commit => map r | r in s.locks && s.locks[r] != w :: s.locks[r]
    case Rollback => map r | r in s.locks && s.locks[r] != w :: s.locks[r]
    case _ => s.locks
  }

  ghost function Apply(hs: Handlers, s: State, step: Step): State
    requires Enabled(hs, s, step)
  {
    match step
    case Enqueue(c) => s.(db := s.db.(commands := s.db.commands[c := 0]), known := s.known + {c})
    case Begin(w) => s.(txs := s.txs[w := Idle])
    case Act(w, m) =>
      var tx := s.txs[w];
      var t := s.(txs := s.txs[w := Moved(hs, s, tx, m)], locks := Taken(s, w, m));
      if m.Commit? then
        t.(db := Committed(s.db, tx), done := DoneAfter(s.done, tx))
      else t
  }

  ghost predicate Init(s: State) {
    s.db == Db(map[], map[], map[]) && s.done == [] && s.known == {} && s.locks == map[] && s.txs == map[]
  }

  // ---- Invariant -----------------------------------------------------------------------

  ghost predicate Owns(s: State, w: WorkerId, r: Resource) {
    r in s.locks && s.locks[r] == w
  }

  /** What a transaction read is still so: the rows that it depends on are locked. */
  ghost predicate Current(hs: Handlers, db: Db, done: seq<Completion>, tx: Tx)
    requires tx.Open?
  {
    && tx.command in db.commands && db.commands[tx.command] == tx.failures
    && (tx.hold.None? ==> tx.row == BLANK && !tx.created && tx.root.None?)
    && (tx.hold.Some? ==>
          && tx.row == RowOf(db, tx.hold.value) && (tx.created <==> tx.hold.value !in db.instances)
          && (tx.root.Some? ==>
                tx.root == Fold(hs(tx.hold.value), hs(tx.hold.value).create, EventsFrom(done, tx.hold.value))))
  }

  ghost predicate Sound(hs: Handlers, db: Db, done: seq<Completion>, tx: Tx)
    requires tx.Open?
  {
    tx.outcome.Some? && tx.outcome.value.Complete? ==>
      && var Complete(stream, base, events, snapshot) := tx.outcome.value;
      && (events != [] ==>
            && base == StreamOf(db, stream).next
            && (tx.row.stream.Some? ==> stream == tx.row.stream.value))
      && (tx.hold.Some? ==>
            && tx.root.Some?
            && var root := Fold(hs(tx.hold.value), tx.root, events);
               root.Some? && snapshot == hs(tx.hold.value).marshal(root.value))
  }

  predicate Appends(tx: Tx) {
    tx.Open? && tx.outcome.Some? && tx.outcome.value.Complete? && tx.outcome.value.events != []
  }

  ghost predicate TxOk(hs: Handlers, s: State, w: WorkerId, tx: Tx) {
    tx.Open? ==>
      && Owns(s, w, CommandRow(tx.command))
      && (tx.hold.Some? ==> Owns(s, w, InstanceRow(tx.hold.value)))
      && (Appends(tx) ==> Owns(s, w, StreamRow(tx.outcome.value.stream)))
      && Current(hs, s.db, s.done, tx) && Sound(hs, s.db, s.done, tx)
  }

  ghost predicate Inv(hs: Handlers, s: State) {
    && DbOk(hs, s.db, s.done, s.known)
    && forall w :: w in s.txs ==> TxOk(hs, s, w, s.txs[w])
  }

  // ---- Commits -------------------------------------------------------------------------

  ghost predicate Committable(hs: Handlers, db: Db, done: seq<Completion>, known: set<CommandId>, tx: Tx) {
    && tx.Open? && tx.outcome.Some?
    && DbOk(hs, db, done, known) && Current(hs, db, done, tx) && Sound(hs, db, done, tx)
  }

  ghost function DoneAfter(done: seq<Completion>, tx: Tx): seq<Completion>
    requires tx.Open? && tx.outcome.Some?
  {
    if tx.outcome.value.Complete? then done + [CompletionOf(tx)] else done
  }

  lemma {:induction false} CommitStreams(hs: Handlers, db: Db, done: seq<Completion>, known: set<CommandId>, tx: Tx)
    requires Committable(hs, db, done, known, tx)
    ensures StreamsOk(Committed(db, tx), DoneAfter(done, tx))
  {
  }

  lemma {:induction false} CommitBound(hs: Handlers, db: Db, done: seq<Completion>, known: set<CommandId>, tx: Tx)
    requires Committable(hs, db, done, known, tx)
    ensures BoundOk(Committed(db, tx), DoneAfter(done, tx))
  {
  }

  lemma {:induction false} CommitQueue(hs: Handlers, db: Db, done: seq<Completion>, known: set<CommandId>, tx: Tx)
    requires Committable(hs, db, done, known, tx)
    ensures QueueOk(Committed(db, tx), DoneAfter(done, tx), known)
  {
  }

  /** A stream only grows, so a snapshot stays what it was. */
  lemma {:induction false} SnapshotKept(h: Handler, db: Db, grown: Db, i: InstanceId, row: Instance)
    requires SnapshotOk(h, db, i, row) && forall s :: StreamOf(db, s).rows <= StreamOf(grown, s).rows
    ensures SnapshotOk(h, grown, i, row)
  {
    if row.snapshot.Some? {
      var s, end := row.stream.value, row.snapshot.value.offset + 1;
      assert StreamOf(grown, s).rows[..end] == StreamOf(db, s).rows[..end];
    }
  }

  /** After the commit, the instance's events on its stream are those it had recorded
      before, and then the new ones. */
  lemma {:induction false} EventsAfter(db: Db, done: seq<Completion>, i: InstanceId, c: Completion)
    requires StreamsOk(db, done + [c]) && BoundOk(db, done + [c])
    requires c.events != [] && c.instance == Some(i)
    ensures Select(StreamOf(db, c.stream).rows, i, 0) == EventsFrom(done, i) + c.events
    ensures StreamOf(db, c.stream).next == |StreamOf(db, c.stream).rows|
  {
    var after := done + [c];
    assert after[|done|] == c;
    assert StreamOf(db, c.stream).rows == RowsFrom(after, c.stream);
    OneMore(done, c, c.stream, i);
    SelectAll(after, c.stream, i);
  }

  /** The snapshot written with a batch of events is the root after all of them. */
  lemma {:induction false} SnapshotTaken(h: Handler, db: Db, i: InstanceId, row: Instance, events: seq<Event>,
                                         more: seq<Event>, root: Option<Root>)
    requires row.stream.Some? && row.snapshot.Some?
    requires var s := StreamOf(db, row.stream.value);
      row.snapshot.value.offset + 1 == |s.rows| && Select(s.rows, i, 0) == events + more
    requires root == Fold(h, Fold(h, h.create, events), more)
    requires root.Some? && h.marshal(root.value) == Some(row.snapshot.value.blob)
    ensures SnapshotOk(h, db, i, row)
  {
    var rows := StreamOf(db, row.stream.value).rows;
    assert rows[..|rows|] == rows;
    FoldConcat(h, h.create, events, more);
  }

  lemma {:induction false} CommitInstances(hs: Handlers, db: Db, done: seq<Completion>, known: set<CommandId>, tx: Tx)
    requires Committable(hs, db, done, known, tx)
    requires StreamsOk(Committed(db, tx), DoneAfter(done, tx)) && BoundOk(Committed(db, tx), DoneAfter(done, tx))
    ensures InstancesOk(hs, Committed(db, tx))
  {
    var t := Committed(db, tx);
    forall i | i in t.instances ensures SnapshotOk(hs(i), t, i, t.instances[i]) {
      if Appends(tx) && tx.hold == Some(i) && tx.outcome.value.snapshot.Some? {
        var events := tx.outcome.value.events;
        EventsAfter(t, done, i, CompletionOf(tx));
        SnapshotTaken(hs(i), t, i, t.instances[i], EventsFrom(done, i), events, Fold(hs(i), tx.root, events));
      } else if i in db.instances {
        assert SnapshotOk(hs(i), db, i, db.instances[i]);
        SnapshotKept(hs(i), db, t, i, db.instances[i]);
      }
    }
  }

  lemma {:induction false} CommitReplayable(hs: Handlers, db: Db, done: seq<Completion>, known: set<CommandId>, tx: Tx)
    requires Committable(hs, db, done, known, tx)
    ensures Replayable(hs, DoneAfter(done, tx))
  {
    if tx.outcome.value.Complete? {
      var c := CompletionOf(tx);
      forall i | EventsFrom(DoneAfter(done, tx), i) != []
        ensures Fold(hs(i), hs(i).create, EventsFrom(DoneAfter(done, tx), i)).Some?
      {
        OneMore(done, c, 0, i);
        FoldConcat(hs(i), hs(i).create, EventsFrom(done, i), c.events);
      }
    }
  }

  lemma {:induction false} CommitKeeps(hs: Handlers, db: Db, done: seq<Completion>, known: set<CommandId>, tx: Tx)
    requires Committable(hs, db, done, known, tx)
    ensures DbOk(hs, Committed(db, tx), DoneAfter(done, tx), known)
  {
    CommitStreams(hs, db, done, known, tx);
    CommitBound(hs, db, done, known, tx);
    CommitQueue(hs, db, done, known, tx);
    CommitInstances(hs, db, done, known, tx);
    CommitReplayable(hs, db, done, known, tx);
  }

  // ---- Steps ---------------------------------------------------------------------------

  lemma {:induction false} StepKeepsDb(hs: Handlers, s: State, step: Step)
    requires Inv(hs, s) && Enabled(hs, s, step)
    ensures var t := Apply(hs, s, step); DbOk(hs, t.db, t.done, t.known)
  {
    if step.Act? && step.move.Commit? {
      assert TxOk(hs, s, step.worker, s.txs[step.worker]);
      CommitKeeps(hs, s.db, s.done, s.known, s.txs[step.worker]);
    } else if step.Enqueue? {
      var t := Apply(hs, s, step);
      forall u ensures StreamOf(t.db, u) == EventStream(|RowsFrom(s.done, u)|, RowsFrom(s.done, u)) {
        assert StreamOf(t.db, u) == StreamOf(s.db, u);
      }
      forall i | i in t.db.instances ensures SnapshotOk(hs(i), t.db, i, t.db.instances[i]) {
        SnapshotKept(hs(i), s.db, t.db, i, s.db.instances[i]);
      }
    }
  }

  lemma {:induction false} RecordSound(hs: Handlers, s: State, tx: Tx, events: seq<Event>, stream: Uuid)
    requires MoveEnabled(hs, s, tx, Record(events, stream)) && Current(hs, s.db, s.done, tx)
    ensures var t := Moved(hs, s, tx, Record(events, stream));
      Current(hs, s.db, s.done, t) && Sound(hs, s.db, s.done, t)
  {
  }

  lemma {:induction false} MoveKeeps(hs: Handlers, s: State, w: WorkerId, m: Move)
    requires RoundTrips(hs) && Inv(hs, s) && Enabled(hs, s, Act(w, m))
    ensures var t := Apply(hs, s, Act(w, m)); TxOk(hs, t, w, t.txs[w])
  {
    var tx := s.txs[w];
    assert TxOk(hs, s, w, tx);
    if m.LoadRoot? {
      LoadIsFold(hs, s.db, s.done, tx.hold.value);
    } else if m.Record? {
      RecordSound(hs, s, tx, m.events, m.stream);
    }
  }

  /** A commit leaves alone what other transactions have locked. */
  lemma {:induction false} CommitSpares(hs: Handlers, db: Db, done: seq<Completion>, tx: Tx, other: Tx)
    requires tx.Open? && tx.outcome.Some? && other.Open?
    requires Current(hs, db, done, other) && Sound(hs, db, done, other)
    requires tx.command != other.command && (tx.hold.Some? ==> tx.hold != other.hold)
    requires Appends(tx) && Appends(other) ==> tx.outcome.value.stream != other.outcome.value.stream
    ensures Current(hs, Committed(db, tx), DoneAfter(done, tx), other)
    ensures Sound(hs, Committed(db, tx), DoneAfter(done, tx), other)
  {
  }

  lemma {:induction false} CommitKeepsOther(hs: Handlers, s: State, w: WorkerId, v: WorkerId)
    requires Inv(hs, s) && Enabled(hs, s, Act(w, Commit)) && v in s.txs && v != w
    ensures TxOk(hs, Apply(hs, s, Act(w, Commit)), v, s.txs[v])
  {
    assert TxOk(hs, s, w, s.txs[w]) && TxOk(hs, s, v, s.txs[v]);
    if s.txs[v].Open? {
      CommitSpares(hs, s.db, s.done, s.txs[w], s.txs[v]);
    }
  }

  lemma {:induction false} OthersKeep(hs: Handlers, s: State, step: Step, v: WorkerId)
    requires Inv(hs, s) && Enabled(hs, s, step) && v in s.txs && !(step.Act? && step.worker == v)
    ensures var t := Apply(hs, s, step); v in t.txs && TxOk(hs, t, v, t.txs[v])
  {
    assert TxOk(hs, s, v, s.txs[v]);
    if step.Act? && step.move.Commit? {
      CommitKeepsOther(hs, s, step.worker, v);
    } else if step.Enqueue? && s.txs[v].Open? {
      assert Current(hs, Apply(hs, s, step).db, s.done, s.txs[v]) && Sound(hs, Apply(hs, s, step).db, s.done, s.txs[v]);
    }
  }

  lemma {:induction false} StepKeeps(hs: Handlers, s: State, step: Step)
    requires RoundTrips(hs) && Inv(hs, s) && Enabled(hs, s, step)
    ensures Inv(hs, Apply(hs, s, step))
  {
    var t := Apply(hs, s, step);
    StepKeepsDb(hs, s, step);
    forall w | w in t.txs ensures TxOk(hs, t, w, t.txs[w]) {
      if step.Act? && step.worker == w {
        MoveKeeps(hs, s, w, step.move);
      } else if w in s.txs {
        OthersKeep(hs, s, step, w);
      }
    }
  }

  // ---- Runs ----------------------------------------------------------------------------

  ghost predicate Run(hs: Handlers, s: State, steps: seq<Step>)
    decreases |steps|, 0
  {
    steps == [] ||
    (Run(hs, s, steps[..|steps| - 1]) && Enabled(hs, StateAfter(hs, s, steps[..|steps| - 1]), steps[|steps| - 1]))
  }

  ghost function StateAfter(hs: Handlers, s: State, steps: seq<Step>): State
    requires Run(hs, s, steps)
    decreases |steps|, 1
  {
    if steps == [] then s else Apply(hs, StateAfter(hs, s, steps[..|steps| - 1]), steps[|steps| - 1])
  }

  lemma {:induction false} RunKeeps(hs: Handlers, s: State, steps: seq<Step>)
    requires RoundTrips(hs) && Inv(hs, s) && Run(hs, s, steps)
    ensures Inv(hs, StateAfter(hs, s, steps)) && s.done <= StateAfter(hs, s, steps).done
  {
    if steps != [] {
      var init, last := steps[..|steps| - 1], steps[|steps| - 1];
      RunKeeps(hs, s, init);
      StepKeeps(hs, StateAfter(hs, s, init), last);
    }
  }

  lemma {:induction false} InitOk(hs: Handlers, s: State)
    requires Init(s)
    ensures Inv(hs, s)
  {
  }

  /** However transactions overlap, fail and roll back, every stream holds the batches of
      the commands handled so far, whole, in commit order, at the offsets from 0 to the
      stream's next offset, as if the commands had been handled one by one; and a command
      that is still queued has no events. */
  lemma {:induction false} StreamsAreSerial(hs: Handlers, s: State, steps: seq<Step>, u: Uuid, k: nat)
    requires RoundTrips(hs) && Init(s) && Run(hs, s, steps)
    ensures var t := StateAfter(hs, s, steps);
      && StreamOf(t.db, u).rows == RowsFrom(t.done, u) && StreamOf(t.db, u).next == |RowsFrom(t.done, u)|
      && (k < |RowsFrom(t.done, u)| ==>
            && StreamOf(t.db, u).rows[k].offset == k
            && StreamOf(t.db, u).rows[k].cause !in t.db.commands)
  {
    InitOk(hs, s);
    RunKeeps(hs, s, steps);
    var t := StateAfter(hs, s, steps);
    assert StreamOf(t.db, u) == EventStream(|RowsFrom(t.done, u)|, RowsFrom(t.done, u));
    if k < |RowsFrom(t.done, u)| {
      RowsNumbered(t.done, u, k);
      var j, m := RowOrigin(t.done, u, k);
    }
  }

  /** Every event of every command that was handled is on the stream, in its place: after
      everything recorded there by the commands before it, and after the events that its
      own command recorded before it. */
  lemma {:induction false} EveryEventIsThere(hs: Handlers, s: State, steps: seq<Step>, j: nat, m: nat)
    requires RoundTrips(hs) && Init(s) && Run(hs, s, steps)
    requires j < |StateAfter(hs, s, steps).done| && m < |StateAfter(hs, s, steps).done[j].events|
    ensures var t := StateAfter(hs, s, steps);
      var c := t.done[j];
      var k := |RowsFrom(t.done[..j], c.stream)| + m;
      && k < |StreamOf(t.db, c.stream).rows|
      && StreamOf(t.db, c.stream).rows[k] == Row(k, c.instance, c.events[m], c.command)
  {
    var done := StateAfter(hs, s, steps).done;
    EventPlace(done, j, m);
    StreamsAreSerial(hs, s, steps, done[j].stream, 0);
  }

  /** A root loaded at any time is the fold of every event that the instance ever
      recorded, whatever its snapshot: no snapshot, a stale one, or one that can not be
      read. Loading fails only if the handler can not create a root. */
  lemma {:induction false} RootsAreFolds(hs: Handlers, s: State, steps: seq<Step>, i: InstanceId)
    requires RoundTrips(hs) && Init(s) && Run(hs, s, steps)
    ensures var t, h := StateAfter(hs, s, steps), hs(i);
      && Load(h, t.db, i, RowOf(t.db, i)) == Fold(h, h.create, EventsFrom(t.done, i))
      && (h.create.Some? ==> Load(h, t.db, i, RowOf(t.db, i)).Some?)
      && forall w :: w in t.txs && t.txs[w].Open? && t.txs[w].hold == Some(i) && t.txs[w].root.Some? ==>
           t.txs[w].root == Fold(h, h.create, EventsFrom(t.done, i))
  {
    InitOk(hs, s);
    RunKeeps(hs, s, steps);
    var t, h := StateAfter(hs, s, steps), hs(i);
    LoadIsFold(hs, t.db, t.done, i);
    forall w | w in t.txs && t.txs[w].Open? && t.txs[w].hold == Some(i) && t.txs[w].root.Some?
      ensures t.txs[w].root == Fold(h, h.create, EventsFrom(t.done, i))
    {
      assert TxOk(hs, t, w, t.txs[w]);
    }
  }

  /** An instance's events lie on the one stream that it is bound to. */
  lemma {:induction false} InstanceOnOneStream(hs: Handlers, s: State, steps: seq<Step>, u: Uuid, k: nat)
    requires RoundTrips(hs) && Init(s) && Run(hs, s, steps)
    requires k < |StreamOf(StateAfter(hs, s, steps).db, u).rows|
    ensures var t := StateAfter(hs, s, steps);
      var row := StreamOf(t.db, u).rows[k];
      row.instance.Some? ==> RowOf(t.db, row.instance.value).stream == Some(u)
  {
    StreamsAreSerial(hs, s, steps, u, k);
    InitOk(hs, s);
    RunKeeps(hs, s, steps);
    var j, m := RowOrigin(StateAfter(hs, s, steps).done, u, k);
  }

  // ---- Readers -------------------------------------------------------------------------

  /** The stream as its readers see it. */
  ghost function LogOf(pack: Row -> Envelope, stream: EventStream): Log {
    Log(seq(|stream.rows|, k requires 0 <= k < |stream.rows| => pack(stream.rows[k])), stream.next)
  }

  lemma {:induction false} RowsGrow(done: seq<Completion>, more: seq<Completion>, s: Uuid)
    requires done <= more
    ensures RowsFrom(done, s) <= RowsFrom(more, s)
    decreases |more|
  {
    if |done| < |more| {
      var init := more[..|more| - 1];
      assert done <= init;
      RowsGrow(done, init, s);
    } else {
      assert done == more;
    }
  }

  /** Streams are valid logs and only ever extended: a reader that has seen a stream end
      at some offset never finds a new event below it. */
  lemma {:induction false} ReadersMissNothing(hs: Handlers, s: State, steps: seq<Step>, u: Uuid, pack: Row -> Envelope)
    requires RoundTrips(hs) && Inv(hs, s) && Run(hs, s, steps)
    requires forall r :: pack(r).offset == r.offset
    ensures var before, after := LogOf(pack, StreamOf(s.db, u)), LogOf(pack, StreamOf(StateAfter(hs, s, steps).db, u));
      ValidLog(before) && ValidLog(after) && Extends(before, after)
  {
    RunKeeps(hs, s, steps);
    var t := StateAfter(hs, s, steps);
    assert StreamOf(s.db, u).rows == RowsFrom(s.done, u) && StreamOf(t.db, u).rows == RowsFrom(t.done, u);
    RowsGrow(s.done, t.done, u);
    forall k | 0 <= k < |RowsFrom(t.done, u)| ensures RowsFrom(t.done, u)[k].offset == k {
      RowsNumbered(t.done, u, k);
    }
    forall k | 0 <= k < |RowsFrom(s.done, u)| ensures RowsFrom(s.done, u)[k].offset == k {
      RowsNumbered(s.done, u, k);
    }
  }

  // ---- Effects -------------------------------------------------------------------------

  /** A stream gains one row for each event, in order, at the offsets from its next one on. */
  ghost predicate Gains(before: EventStream, after: EventStream, command: CommandId, hold: Option<InstanceId>,
                        events: seq<Event>)
  {
    && after.next == before.next + |events|
    && |after.rows| == |before.rows| + |events| && before.rows <= after.rows
    && forall k :: 0 <= k < |events| ==>
         after.rows[|before.rows| + k] == Row(before.next + k, hold, events[k], command)
  }

  /** What becomes of the instance's row: it is bound to the stream, with a snapshot as of
      the last event if the root could be marshaled; if there are no events, a row that is
      bound to no stream does not stay. */
  ghost predicate Binds(before: Db, after: Db, i: InstanceId, stream: Uuid, events: seq<Event>, snapshot: Option<Blob>)
  {
    if events != [] then
      && i in after.instances && after.instances == before.instances[i := after.instances[i]]
      && after.instances[i].stream == Some(stream)
      && after.instances[i].snapshot == match snapshot
           case Some(blob) => Some(Snapshot(StreamOf(before, stream).next + |events| - 1, blob))
           case None => RowOf(before, i).snapshot
    else
      after.instances == if RowOf(before, i).stream.None? then before.instances - {i} else before.instances
  }

  /** The whole effect of handling a command: it leaves the queue, its events are appended
      to one stream, and the instance that it was routed to, if any, is bound to it. */
  ghost predicate Completes(before: Db, after: Db, command: CommandId, hold: Option<InstanceId>, stream: Uuid,
                            events: seq<Event>, snapshot: Option<Blob>)
  {
    && after.commands == before.commands - {command}
    && (if events == [] then after.streams == before.streams
        else
          && stream in after.streams && after.streams == before.streams[stream := after.streams[stream]]
          && Gains(StreamOf(before, stream), after.streams[stream], command, hold, events))
    && match hold
       case Some(i) => Binds(before, after, i, stream, events, snapshot)
       case None => after.instances == before.instances
  }

  lemma {:induction false} CommitCompletes(db: Db, tx: Tx)
    requires tx.Open? && tx.outcome.Some? && tx.outcome.value.Complete?
    requires tx.outcome.value.events != [] ==> tx.outcome.value.base == StreamOf(db, tx.outcome.value.stream).next
    requires tx.hold.Some? ==> tx.row == RowOf(db, tx.hold.value)
    ensures var Complete(stream, _, events, snapshot) := tx.outcome.value;
      Completes(db, Committed(db, tx), tx.command, tx.hold, stream, events, snapshot)
  {
  }

  /** One command leaves the queue, in the commit that records it as handled. The snapshot
      is what the handler makes of the root that the events leave. */
  ghost predicate Handles(hs: Handlers, s: State, t: State, tx: Tx)
    requires tx.Open? && tx.outcome.Some? && tx.outcome.value.Complete?
  {
    var Complete(stream, _, events, snapshot) := tx.outcome.value;
    && tx.command in s.db.commands
    && t.done == s.done + [Completion(tx.command, tx.hold, stream, events)]
    && Completes(s.db, t.db, tx.command, tx.hold, stream, events, snapshot)
    && (tx.hold.Some? ==>
          && Fold(hs(tx.hold.value), tx.root, events).Some?
          && snapshot == hs(tx.hold.value).marshal(Fold(hs(tx.hold.value), tx.root, events).value))
  }

  /** Nothing is committed but the number of failures and, at most, a row for an instance
      that is bound to no stream. */
  ghost predicate Postpones(s: State, t: State, c: CommandId, busy: bool) {
    && t.done == s.done && t.db.streams == s.db.streams
    && c in s.db.commands
    && t.db.commands == s.db.commands[c := s.db.commands[c] + if busy then 0 else 1]
    && (t.db.instances == s.db.instances
        || exists i: InstanceId :: i !in s.db.instances && t.db.instances == s.db.instances[i := BLANK])
  }

  /** The whole effect of every step on the tables. Only the commit of a handled command
      appends events, and it takes that command from the queue; a failed or busy attempt
      only postpones it; nothing else but an enqueue shows. */
  lemma {:induction false} StepEffects(hs: Handlers, s: State, step: Step)
    requires Inv(hs, s) && Enabled(hs, s, step)
    ensures var t := Apply(hs, s, step);
      if step.Enqueue? then
        && t.done == s.done && t.db == s.db.(commands := s.db.commands[step.command := 0])
        && step.command !in s.db.commands
      else if step.Act? && step.move.Commit? then
        var tx := s.txs[step.worker];
        if tx.outcome.value.Postpone? then Postpones(s, t, tx.command, tx.outcome.value.busy)
        else Handles(hs, s, t, tx)
      else t.db == s.db && t.done == s.done
  {
    if step.Act? && step.move.Commit? {
      var tx := s.txs[step.worker];
      assert TxOk(hs, s, step.worker, tx);
      if tx.outcome.value.Complete? {
        CommitCompletes(s.db, tx);
      }
    }
  }

  /** No command is ever handled twice, and none that has been handled is queued. */
  lemma {:induction false} HandledAtMostOnce(hs: Handlers, s: State, steps: seq<Step>)
    requires RoundTrips(hs) && Init(s) && Run(hs, s, steps)
    ensures var t := StateAfter(hs, s, steps);
      && (forall j, k :: 0 <= j < k < |t.done| ==> t.done[j].command != t.done[k].command)
      && (forall k :: 0 <= k < |t.done| ==> t.done[k].command !in t.db.commands)
  {
    InitOk(hs, s);
    RunKeeps(hs, s, steps);
  }

  // ---- Locks ---------------------------------------------------------------------------

  /** What a transaction needs locked. */
  predicate Needs(tx: Tx, r: Resource) {
    && tx.Open?
    && match r
       case CommandRow(c) => c == tx.command
       case InstanceRow(i) => tx.hold == Some(i)
       case StreamRow(u) => Appends(tx) && u == tx.outcome.value.stream
  }

  ghost predicate AllNeeded(s: State) {
    forall r :: r in s.locks ==> s.locks[r] in s.txs && Needs(s.txs[s.locks[r]], r)
  }

  lemma {:induction false} StepNeeded(hs: Handlers, s: State, step: Step)
    requires AllNeeded(s) && Enabled(hs, s, step)
    ensures AllNeeded(Apply(hs, s, step))
  {
    var t := Apply(hs, s, step);
    forall r | r in t.locks ensures t.locks[r] in t.txs && Needs(t.txs[t.locks[r]], r) {
      assert r in s.locks ==> s.locks[r] in s.txs && Needs(s.txs[s.locks[r]], r);
    }
  }

  lemma {:induction false} RunNeeded(hs: Handlers, s: State, steps: seq<Step>)
    requires AllNeeded(s) && Run(hs, s, steps)
    ensures AllNeeded(StateAfter(hs, s, steps))
  {
    if steps != [] {
      RunNeeded(hs, s, steps[..|steps| - 1]);
      StepNeeded(hs, StateAfter(hs, s, steps[..|steps| - 1]), steps[|steps| - 1]);
    }
  }

  /** A row is locked exactly while an open transaction needs it, and by that transaction
      alone: nothing stays locked once the transaction has committed or rolled back. */
  lemma {:induction false} LockedWhileNeeded(hs: Handlers, s: State, steps: seq<Step>, r: Resource, w: WorkerId)
    requires RoundTrips(hs) && Init(s) && Run(hs, s, steps)
    ensures var t := StateAfter(hs, s, steps);
      Owns(t, w, r) <==> w in t.txs && Needs(t.txs[w], r)
  {
    InitOk(hs, s);
    RunKeeps(hs, s, steps);
    RunNeeded(hs, s, steps);
    var t := StateAfter(hs, s, steps);
    if w in t.txs && Needs(t.txs[w], r) {
      assert TxOk(hs, t, w, t.txs[w]);
    }
  }
}
