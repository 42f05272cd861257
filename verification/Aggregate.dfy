/** Aggregate and integration commands: transactions that take a command from the queue,
    load an aggregate root from a snapshot and later events, and append events to a stream
    (internal/aggregate/commandpump.go, internal/messagepump/pump.go and commandqueue.go,
    internal/schema/ddl/20-aggregate/10-funcs.sql, 00-eventstream/10-funcs.sql). */
module Aggregates {
  import opened Stream

  type CommandId = nat
  type InstanceId = nat      // a handler's key and the instance's ID
  type WorkerId = nat
  type Event = int
  type Root = int
  type Blob = int

  // ---- Handlers ----------------------------------------------------------------------

  /** The application's code. None is a panic or an error. */
  datatype Handler = Handler(
    create: Option<Root>,
    apply: (Root, Event) -> Option<Root>,
    marshal: Root -> Option<Blob>,
    unmarshal: Blob -> Option<Root>)

  type Handlers = InstanceId -> Handler

  /** A snapshot either can not be read or is the root that it was taken of. */
  ghost predicate RoundTrips(hs: Handlers) {
    forall i, r :: hs(i).marshal(r).Some? ==>
      hs(i).unmarshal(hs(i).marshal(r).value) in {None, Some(r)}
  }

  function Fold(h: Handler, root: Option<Root>, events: seq<Event>): Option<Root> {
    if events == [] then root
    else
      var r := Fold(h, root, events[..|events| - 1]);
      if r.None? then None else h.apply(r.value, events[|events| - 1])
  }

  /** Events are applied one after the other, each to the root that the ones before it left. */
  lemma {:induction false} FoldSteps(h: Handler, root: Option<Root>, events: seq<Event>, e: Event)
    ensures Fold(h, root, []) == root
    ensures Fold(h, root, events + [e]) ==
      if Fold(h, root, events).None? then None else h.apply(Fold(h, root, events).value, e)
  {
    assert (events + [e])[..|events|] == events;
  }

  lemma {:induction false} FoldConcat(h: Handler, root: Option<Root>, a: seq<Event>, b: seq<Event>)
    ensures Fold(h, root, a + b) == Fold(h, Fold(h, root, a), b)
    decreases |b|
  {
    if b == [] {
      assert a + b == a;
    } else {
      assert (a + b)[..|a + b| - 1] == a + b[..|b| - 1];
      FoldConcat(h, root, a, b[..|b| - 1]);
    }
  }

  // ---- Tables ------------------------------------------------------------------------

  /** `instance` is None for an event recorded by an integration handler. */
  datatype Row = Row(offset: nat, instance: Option<InstanceId>, event: Event, cause: CommandId)

  /** A row of eventstream.streams with its rows of eventstream.events, in the order in
      which they were inserted. */
  datatype EventStream = EventStream(next: nat, rows: seq<Row>)

  datatype Snapshot = Snapshot(offset: nat, blob: Blob)

  datatype Instance = Instance(stream: Option<Uuid>, snapshot: Option<Snapshot>)

  datatype Db = Db(
    streams: map<Uuid, EventStream>,
    instances: map<InstanceId, Instance>,
    commands: map<CommandId, nat>)      // the number of failures of each queued command

  function StreamOf(db: Db, s: Uuid): EventStream {
    if s in db.streams then db.streams[s] else EventStream(0, [])
  }

  // ---- History -----------------------------------------------------------------------

  /** A command that was handled, with its events and the stream they went to. */
  datatype Completion = Completion(command: CommandId, instance: Option<InstanceId>, stream: Uuid, events: seq<Event>)

  function Batch(c: Completion, base: nat): seq<Row> {
    seq(|c.events|, k requires 0 <= k < |c.events| => Row(base + k, c.instance, c.events[k], c.command))
  }

  /** What the stream holds if the completed commands are executed one by one. */
  function RowsFrom(done: seq<Completion>, s: Uuid): seq<Row> {
    if done == [] then []
    else
      var before, last := RowsFrom(done[..|done| - 1], s), done[|done| - 1];
      if last.events != [] && last.stream == s then before + Batch(last, |before|) else before
  }

  /** All the events that the instance ever recorded. */
  function EventsFrom(done: seq<Completion>, i: InstanceId): seq<Event> {
    if done == [] then []
    else
      var before, last := EventsFrom(done[..|done| - 1], i), done[|done| - 1];
      if last.events != [] && last.instance == Some(i) then before + last.events else before
  }

  lemma {:induction false} OneMore(done: seq<Completion>, c: Completion, s: Uuid, i: InstanceId)
    ensures RowsFrom(done + [c], s) ==
      if c.events != [] && c.stream == s then RowsFrom(done, s) + Batch(c, |RowsFrom(done, s)|) else RowsFrom(done, s)
    ensures EventsFrom(done + [c], i) ==
      if c.events != [] && c.instance == Some(i) then EventsFrom(done, i) + c.events else EventsFrom(done, i)
  {
  }

  lemma {:induction false} RowsNumbered(done: seq<Completion>, s: Uuid, k: nat)
    requires k < |RowsFrom(done, s)|
    ensures RowsFrom(done, s)[k].offset == k
  {
    var before, last := RowsFrom(done[..|done| - 1], s), done[|done| - 1];
    if k < |before| {
      RowsNumbered(done[..|done| - 1], s, k);
    }
  }

  /** Where a row comes from: the m-th event of the j-th command that was handled, after
      everything that the commands before it put on the stream. */
  lemma {:induction false} RowOrigin(done: seq<Completion>, s: Uuid, k: nat) returns (j: nat, m: nat)
    requires k < |RowsFrom(done, s)|
    ensures j < |done| && done[j].stream == s && m < |done[j].events| && k == |RowsFrom(done[..j], s)| + m
    ensures RowsFrom(done, s)[k] == Row(k, done[j].instance, done[j].events[m], done[j].command)
  {
    var init := done[..|done| - 1];
    if k < |RowsFrom(init, s)| {
      j, m := RowOrigin(init, s, k);
      assert init[..j] == done[..j];
    } else {
      j, m := |done| - 1, k - |RowsFrom(init, s)|;
    }
  }

  /** Where an event goes: none of those recorded is missing. */
  lemma {:induction false} EventPlace(done: seq<Completion>, j: nat, m: nat)
    requires j < |done| && m < |done[j].events|
    ensures var s, k := done[j].stream, |RowsFrom(done[..j], done[j].stream)| + m;
      && k < |RowsFrom(done, s)|
      && RowsFrom(done, s)[k] == Row(k, done[j].instance, done[j].events[m], done[j].command)
  {
    var init := done[..|done| - 1];
    if j < |init| {
      assert init[..j] == done[..j];
      EventPlace(init, j, m);
    }
  }

  /** The query for an instance's events on a stream at or after an offset. */
  function Select(rows: seq<Row>, i: InstanceId, from: nat): seq<Event> {
    if rows == [] then []
    else
      var before, last := Select(rows[..|rows| - 1], i, from), rows[|rows| - 1];
      if last.instance == Some(i) && last.offset >= from then before + [last.event] else before
  }

  lemma {:induction false} SelectConcat(xs: seq<Row>, ys: seq<Row>, i: InstanceId)
    ensures Select(xs + ys, i, 0) == Select(xs, i, 0) + Select(ys, i, 0)
    decreases |ys|
  {
    if ys == [] {
      assert xs + ys == xs;
    } else {
      assert (xs + ys)[..|xs + ys| - 1] == xs + ys[..|ys| - 1];
      SelectConcat(xs, ys[..|ys| - 1], i);
    }
  }

  lemma {:induction false} SelectOwn(c: Completion, base: nat, i: InstanceId)
    requires c.instance == Some(i)
    ensures Select(Batch(c, base), i, 0) == c.events
    decreases |c.events|
  {
    if c.events != [] {
      var init := c.(events := c.events[..|c.events| - 1]);
      assert Batch(c, base)[..|c.events| - 1] == Batch(init, base);
      SelectOwn(init, base, i);
    }
  }

  /** A completed command adds all its events to its own instance, and none to any other. */
  lemma {:induction false} SelectBatch(rows: seq<Row>, c: Completion, i: InstanceId)
    requires c.events != []
    ensures Select(rows + Batch(c, |rows|), i, 0) ==
      if c.instance == Some(i) then Select(rows, i, 0) + c.events else Select(rows, i, 0)
  {
    SelectConcat(rows, Batch(c, |rows|), i);
    if c.instance == Some(i) {
      SelectOwn(c, |rows|, i);
    } else {
      SelectNone(Batch(c, |rows|), i, 0);
    }
  }

  /** An instance's events on the stream that it is bound to are all its events. */
  lemma {:induction false} SelectAll(done: seq<Completion>, s: Uuid, i: InstanceId)
    requires forall k :: 0 <= k < |done| && done[k].instance == Some(i) && done[k].events != [] ==> done[k].stream == s
    ensures Select(RowsFrom(done, s), i, 0) == EventsFrom(done, i)
  {
    if done != [] {
      var init, last := done[..|done| - 1], done[|done| - 1];
      forall k | 0 <= k < |init| && init[k].instance == Some(i) && init[k].events != [] ensures init[k].stream == s {
        assert init[k] == done[k];
      }
      SelectAll(init, s, i);
      if last.events != [] && last.stream == s {
        var rows := RowsFrom(init, s);
        SelectBatch(rows, last, i);
      }
    }
  }

  lemma {:induction false} SelectFrom(rows: seq<Row>, i: InstanceId, n: nat)
    requires n <= |rows| && forall k :: 0 <= k < |rows| ==> rows[k].offset == k
    ensures Select(rows, i, 0) == Select(rows[..n], i, 0) + Select(rows, i, n)
    decreases |rows|
  {
    if |rows| > n {
      var init := rows[..|rows| - 1];
      SelectFrom(init, i, n);
      assert init[..n] == rows[..n];
    } else {
      assert rows[..n] == rows;
      SelectNone(rows, i, n);
    }
  }

  lemma {:induction false} SelectNone(rows: seq<Row>, i: InstanceId, n: nat)
    requires forall k :: 0 <= k < |rows| ==> rows[k].instance != Some(i) || rows[k].offset < n
    ensures Select(rows, i, n) == []
    decreases |rows|
  {
    if rows != [] {
      SelectNone(rows[..|rows| - 1], i, n);
    }
  }

  // ---- Loading -----------------------------------------------------------------------

  /** What the snapshot yields: the root to start from, and the offset of the first event
      that it does not include. */
  function Restored(h: Handler, row: Instance): (Option<Root>, nat) {
    if h.create.Some? && row.snapshot.Some? && h.unmarshal(row.snapshot.value.blob).Some? then
      (h.unmarshal(row.snapshot.value.blob), row.snapshot.value.offset + 1)
    else
      (h.create, 0)
  }

  /** The root that loadInstance makes of an instance's row. */
  function Load(h: Handler, db: Db, i: InstanceId, row: Instance): Option<Root> {
    if row.stream.None? then h.create
    else
      var (root, from) := Restored(h, row);
      Fold(h, root, Select(StreamOf(db, row.stream.value).rows, i, from))
  }

  /** applyHistoricalEvents. None is ErrFailed. */
  method ApplyHistoricalEvents(h: Handler, rows: seq<Row>, i: InstanceId, from: nat, start: Root)
    returns (root: Option<Root>)
    ensures root == Fold(h, Some(start), Select(rows, i, from))
  {
    root := Some(start);
    for k := 0 to |rows|
      invariant root == Fold(h, Some(start), Select(rows[..k], i, from))
    {
      assert rows[..k + 1][..k] == rows[..k];
      if rows[k].instance == Some(i) && rows[k].offset >= from {
        ghost var before := Select(rows[..k], i, from);
        assert (before + [rows[k].event])[..|before|] == before;
        root := if root.None? then None else h.apply(root.value, rows[k].event);
      }
    }
    assert rows[..|rows|] == rows;
  }

  /** loadInstance, once the instance's row is locked. */
  method LoadInstance(h: Handler, db: Db, i: InstanceId, row: Instance) returns (root: Option<Root>)
    ensures root == Load(h, db, i, row)
    ensures h.create.None? ==> root.None?
    ensures h.create.Some? && row.stream.Some? ==>
      var rows := StreamOf(db, row.stream.value).rows;
      if row.snapshot.Some? && h.unmarshal(row.snapshot.value.blob).Some? then
        root == Fold(h, h.unmarshal(row.snapshot.value.blob), Select(rows, i, row.snapshot.value.offset + 1))
      else root == Fold(h, h.create, Select(rows, i, 0))
  {
    if h.create.None? {
      if row.stream.Some? {
        FoldNone(h, Select(StreamOf(db, row.stream.value).rows, i, 0));
      }
      return None;
    }
    if row.stream.None? {
      return h.create;
    }
    var start, next := h.create.value, 0;
    if row.snapshot.Some? {
      var restored := h.unmarshal(row.snapshot.value.blob);
      if restored.Some? {
        start, next := restored.value, row.snapshot.value.offset + 1;
      }
    }
    root := ApplyHistoricalEvents(h, StreamOf(db, row.stream.value).rows, i, next, start);
  }

  lemma {:induction false} FoldNone(h: Handler, events: seq<Event>)
    ensures Fold(h, None, events) == None
    decreases |events|
  {
    if events != [] {
      FoldNone(h, events[..|events| - 1]);
    }
  }

  // ---- Consistency of the tables -------------------------------------------------

  ghost predicate StreamsOk(db: Db, done: seq<Completion>) {
    forall s :: StreamOf(db, s) == EventStream(|RowsFrom(done, s)|, RowsFrom(done, s))
  }

  /** Everything an instance recorded is on the stream that it is bound to. */
  ghost predicate BoundOk(db: Db, done: seq<Completion>) {
    forall k :: 0 <= k < |done| && done[k].instance.Some? && done[k].events != [] ==>
      && done[k].instance.value in db.instances
      && db.instances[done[k].instance.value].stream == Some(done[k].stream)
  }

  /** A snapshot is the root as it was just after the event at its offset. */
  ghost predicate SnapshotOk(h: Handler, db: Db, i: InstanceId, row: Instance) {
    row.snapshot.Some? ==>
      && row.stream.Some?
      && var rows, end := StreamOf(db, row.stream.value).rows, row.snapshot.value.offset + 1;
         && end <= |rows|
         && var root := Fold(h, h.create, Select(rows[..end], i, 0));
            root.Some? && h.marshal(root.value) == Some(row.snapshot.value.blob)
  }

  ghost predicate InstancesOk(hs: Handlers, db: Db) {
    forall i :: i in db.instances ==> SnapshotOk(hs(i), db, i, db.instances[i])
  }

  ghost predicate QueueOk(db: Db, done: seq<Completion>, known: set<CommandId>) {
    && db.commands.Keys <= known
    && (forall k :: 0 <= k < |done| ==> done[k].command in known && done[k].command !in db.commands)
    && (forall j, k :: 0 <= j < k < |done| ==> done[j].command != done[k].command)
  }

  /** What was recorded can be replayed: it was applied to the root when it was recorded. */
  ghost predicate Replayable(hs: Handlers, done: seq<Completion>) {
    forall i :: EventsFrom(done, i) != [] ==> Fold(hs(i), hs(i).create, EventsFrom(done, i)).Some?
  }

  ghost predicate DbOk(hs: Handlers, db: Db, done: seq<Completion>, known: set<CommandId>) {
    && StreamsOk(db, done) && BoundOk(db, done) && InstancesOk(hs, db)
    && QueueOk(db, done, known) && Replayable(hs, done)
  }

  /** The row of an instance that has no row, and so has recorded nothing. */
  function RowOf(db: Db, i: InstanceId): Instance {
    if i in db.instances then db.instances[i] else Instance(None, None)
  }

  lemma {:induction false} Unrecorded(db: Db, done: seq<Completion>, i: InstanceId)
    requires BoundOk(db, done) && RowOf(db, i).stream.None?
    ensures EventsFrom(done, i) == []
  {
    UnrecordedIn(done, i);
  }

  lemma {:induction false} UnrecordedIn(done: seq<Completion>, i: InstanceId)
    requires forall k :: 0 <= k < |done| && done[k].events != [] ==> done[k].instance != Some(i)
    ensures EventsFrom(done, i) == []
  {
    if done != [] {
      var init := done[..|done| - 1];
      forall k | 0 <= k < |init| && init[k].events != [] ensures init[k].instance != Some(i) {
        assert init[k] == done[k];
      }
      UnrecordedIn(init, i);
    }
  }

  /** Replaying the events after the snapshot is as good as replaying them all. */
  lemma {:induction false} RestoredIsFold(h: Handler, rows: seq<Row>, i: InstanceId, end: nat, root: Root)
    requires end <= |rows| && forall k :: 0 <= k < |rows| ==> rows[k].offset == k
    requires Fold(h, h.create, Select(rows[..end], i, 0)) == Some(root)
    ensures Fold(h, Some(root), Select(rows, i, end)) == Fold(h, h.create, Select(rows, i, 0))
  {
    SelectFrom(rows, i, end);
    FoldConcat(h, h.create, Select(rows[..end], i, 0), Select(rows, i, end));
  }

  lemma {:induction false} LoadBound(h: Handler, db: Db, done: seq<Completion>, i: InstanceId, row: Instance)
    requires forall r :: h.marshal(r).Some? ==> h.unmarshal(h.marshal(r).value) in {None, Some(r)}
    requires StreamsOk(db, done) && SnapshotOk(h, db, i, row) && row.stream.Some?
    ensures Load(h, db, i, row) == Fold(h, h.create, Select(RowsFrom(done, row.stream.value), i, 0))
  {
    var s := row.stream.value;
    var rows := RowsFrom(done, s);
    assert StreamOf(db, s).rows == rows;
    var (root, from) := Restored(h, row);
    if from > 0 {
      forall k | 0 <= k < |rows| ensures rows[k].offset == k {
        RowsNumbered(done, s, k);
      }
      var taken := Fold(h, h.create, Select(rows[..from], i, 0)).value;
      assert h.marshal(taken) == Some(row.snapshot.value.blob);
      RestoredIsFold(h, rows, i, from, taken);
    }
  }

  /** A root loaded from a snapshot and later events, or from all events if the snapshot
      is missing or can not be read, is the fold of every event that the instance ever
      recorded. */
  lemma {:induction false} LoadIsFold(hs: Handlers, db: Db, done: seq<Completion>, i: InstanceId)
    requires RoundTrips(hs) && StreamsOk(db, done) && BoundOk(db, done) && InstancesOk(hs, db)
    ensures Load(hs(i), db, i, RowOf(db, i)) == Fold(hs(i), hs(i).create, EventsFrom(done, i))
  {
    var row := RowOf(db, i);
    if row.stream.None? {
      Unrecorded(db, done, i);
    } else {
      LoadBound(hs(i), db, done, i, row);
      SelectAll(done, row.stream.value, i);
    }
  }
}
