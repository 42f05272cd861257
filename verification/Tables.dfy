/** Handling a command, statement by statement: the SQL functions, the two drivers that call
    them, and the pump that commits or rolls back
    (internal/schema/ddl/00-eventstream/10-funcs.sql, 10-commandqueue/10-funcs.sql,
    20-aggregate/10-funcs.sql and 20-integration/10-funcs.sql,
    internal/aggregate/commandpump.go, internal/integration/commandpump.go,
    internal/messagepump/pump.go). */
module CommandTables {
  import opened Stream
  import opened Aggregates
  import opened CommandHandling

  datatype Result = Done | ErrFailed | ErrBusy | Error

  /** What acquire_for_write meets: the streams that other transactions have locked, the
      stream that it would get after waiting, and the ID that it would generate. */
  datatype Contention = Contention(locked: set<Uuid>, granted: Uuid, created: Uuid)

  /** What the application and other transactions make of one attempt to handle a command:
      whether it can be unmarshaled, the instance it is routed to (None if the handler
      fails), whether another transaction has that instance's row locked, and the events
      that the handler records, given the root (None if it fails). */
  datatype Attempt = Attempt(
    unpacks: bool,
    route: Option<InstanceId>,
    contended: bool,
    handle: Root -> Option<seq<Event>>,
    streams: Contention)

  /** The stream that acquire_for_write settles on: the shortest that is not locked; if all
      are, and one of them is empty, the one that it waits for; otherwise a new one. */
  ghost predicate Acquired(streams: map<Uuid, EventStream>, c: Contention, stream: Uuid) {
    var free := streams.Keys - c.locked;
    if free != {} then stream in free && forall s :: s in free ==> streams[stream].next <= streams[s].next
    else if exists s :: s in streams && streams[s].next == 0 then stream == c.granted
    else stream == c.created
  }

  ghost predicate Plausible(streams: map<Uuid, EventStream>, c: Contention) {
    c.created !in streams && (streams != map[] ==> c.granted in streams)
  }

  /** The transaction of a command that was handled. */
  function Handled(command: CommandId, hold: Option<InstanceId>, row: Instance, stream: Uuid, base: nat,
                   events: seq<Event>, snapshot: Option<Blob>): Tx
  {
    Open(command, 0, hold, row, false, None, Some(Complete(stream, base, events, snapshot)))
  }

  /** The root after a command was handled, and the events that it recorded. */
  datatype Decision = Decision(root: Root, events: seq<Event>)

  /** What becomes of a command once its instance is locked: None if the root can not be
      loaded, or the handler fails, or applying what it records does. */
  function Decide(h: Handler, db: Db, i: InstanceId, row: Instance,
                  handle: Root -> Option<seq<Event>>): Option<Decision> {
    var root := Load(h, db, i, row);
    if root.None? || handle(root.value).None? then None
    else
      var after := Fold(h, root, handle(root.value).value);
      if after.None? then None else Some(Decision(after.value, handle(root.value).value))
  }

  /** Another transaction has locked the row of the instance. */
  predicate IsBusy(db: Db, a: Attempt) {
    a.unpacks && a.route.Some? && a.contended && a.route.value in db.instances
  }

  /** There is no root, the handler fails, or an event that it records can not be applied. */
  predicate Fails(h: Handler, root: Option<Root>, handle: Root -> Option<seq<Event>>) {
    root.None? || handle(root.value).None? || Fold(h, root, handle(root.value).value).None?
  }

  /** The command can not be unmarshaled, has no route, or can not be handled. */
  predicate HasFailed(hs: Handlers, db: Db, a: Attempt) {
    || !a.unpacks || a.route.None?
    || (!IsBusy(db, a) &&
        Fails(hs(a.route.value), Load(hs(a.route.value), db, a.route.value, RowOf(db, a.route.value)), a.handle))
  }

  /** What is committed of an attempt that neither fails nor is busy: the effects of every
      event that the handler recorded, in order. */
  ghost predicate Takes(hs: Handlers, before: Db, after: Db, command: CommandId, a: Attempt, stream: Uuid)
    requires !HasFailed(hs, before, a) && !IsBusy(before, a)
  {
    var i := a.route.value;
    var root := Load(hs(i), before, i, RowOf(before, i));
    var events := a.handle(root.value).value;
    Completes(before, after, command, Some(i), stream, events, hs(i).marshal(Fold(hs(i), root, events).value))
  }

  /** The events go to the stream that the instance is bound to, or to one acquired for it. */
  ghost predicate GoesTo(db: Db, a: Attempt, stream: Uuid) {
    a.route.Some? &&
    match RowOf(db, a.route.value).stream
    case Some(bound) => stream == bound
    case None => Acquired(db.streams, a.streams, stream)
  }

  /** All that a failed attempt leaves behind, besides the number of failures: a row for
      the instance, if the command was routed to one that had none. */
  predicate LeavesRow(before: Db, after: Db, a: Attempt) {
    && after.streams == before.streams
    && after.instances == if a.unpacks && a.route.Some? && a.route.value !in before.instances
                          then before.instances[a.route.value := Instance(None, None)]
                          else before.instances
  }

  /** The transaction that an attempt amounts to, if `stream` is where its events go. */
  ghost function Attempted(hs: Handlers, db: Db, command: CommandId, failures: nat, a: Attempt, stream: Uuid): Tx {
    var tx := Open(command, failures, None, BLANK, false, None, None);
    if !a.unpacks || a.route.None? then tx.(outcome := Some(Postpone(false)))
    else if a.contended && a.route.value in db.instances then tx.(outcome := Some(Postpone(true)))
    else
      var i := a.route.value;
      var row := RowOf(db, i);
      var d := Decide(hs(i), db, i, row, a.handle);
      Open(command, failures, Some(i), row, i !in db.instances, Load(hs(i), db, i, row), Some(
        if d.None? then Postpone(false)
        else Complete(stream, StreamOf(db, stream).next, d.value.events, hs(i).marshal(d.value.root))))
  }

  /** What the transaction says, in the attempt's own terms: it is postponed exactly if the
      attempt failed or was busy, and otherwise it commits what the handler recorded. */
  lemma {:induction false} AttemptedMeans(hs: Handlers, db: Db, command: CommandId, failures: nat, a: Attempt,
                                          stream: Uuid)
    ensures var tx := Attempted(hs, db, command, failures, a, stream);
      && (tx.outcome == Some(Postpone(true)) <==> IsBusy(db, a))
      && (tx.outcome == Some(Postpone(false)) <==> HasFailed(hs, db, a))
      && (tx.outcome.value.Complete? ==>
            && tx.hold == a.route && tx.root.Some? && a.handle(tx.root.value) == Some(tx.outcome.value.events)
            && Takes(hs, db, Committed(db, tx), command, a, stream))
      && (HasFailed(hs, db, a) ==> LeavesRow(db, Committed(db, tx), a))
  {
    var tx := Attempted(hs, db, command, failures, a, stream);
    if tx.outcome.value.Complete? {
      CommitCompletes(db, tx);
    }
  }

  /** The same for an integration handler, which has no instances. */
  ghost function AttemptedIntegration(db: Db, command: CommandId, failures: nat, unpacks: bool,
                                      events: Option<seq<Event>>, stream: Uuid): Tx {
    var tx := Open(command, failures, None, BLANK, false, None, None);
    if !unpacks || events.None? then tx.(outcome := Some(Postpone(false)))
    else tx.(outcome := Some(Complete(stream, StreamOf(db, stream).next, events.value, None)))
  }

  /** RecordEvent, for each event: None if applying one to the root panics. */
  method RecordEvents(h: Handler, start: Root, events: seq<Event>) returns (root: Option<Root>)
    ensures root == Fold(h, Some(start), events)
  {
    root := Some(start);
    for k := 0 to |events|
      invariant root == Fold(h, Some(start), events[..k])
    {
      assert events[..k + 1][..k] == events[..k];
      root := if root.None? then None else h.apply(root.value, events[k]);
    }
    assert events[..|events|] == events;
  }

  /** The aggregate driver's HandleDelivery, between locking the instance and completing. */
  method RunHandler(h: Handler, db: Db, i: InstanceId, row: Instance, handle: Root -> Option<seq<Event>>)
    returns (d: Option<Decision>)
    ensures d == Decide(h, db, i, row, handle)
    ensures d.None? <==> Fails(h, Load(h, db, i, row), handle)
    ensures d.Some? ==>
      var root := Load(h, db, i, row);
      handle(root.value) == Some(d.value.events) && Fold(h, root, d.value.events) == Some(d.value.root)
  {
    var root := LoadInstance(h, db, i, row);
    if root.None? {
      return None;
    }
    var events := handle(root.value);
    if events.None? {
      return None;
    }
    var after := RecordEvents(h, root.value, events.value);
    if after.None? {
      return None;
    }
    return Some(Decision(after.value, events.value));
  }

  /** The tables with a new row for an instance, bound to no stream. */
  function Created(db: Db, i: InstanceId): Db {
    db.(instances := db.instances[i := BLANK])
  }

  /** The new row changes neither what is loaded nor what is committed. */
  lemma {:induction false} CreatedLoads(h: Handler, db: Db, i: InstanceId, row: Instance, stream: Uuid)
    ensures Load(h, Created(db, i), i, row) == Load(h, db, i, row)
      && StreamOf(Created(db, i), stream) == StreamOf(db, stream)
  {
  }

  lemma {:induction false} CreatedCommits(db: Db, tx: Tx)
    requires tx.Open? && tx.hold.Some? && tx.created && tx.outcome.Some? && tx.outcome.value.Complete?
    requires tx.hold.value !in db.instances && tx.row == BLANK
    ensures Committed(Created(db, tx.hold.value), tx) == Committed(db, tx)
  {
    var i := tx.hold.value;
    assert StreamOf(Created(db, i), tx.outcome.value.stream) == StreamOf(db, tx.outcome.value.stream);
    assert Created(db, i).instances - {i} == db.instances;
  }

  lemma {:induction false} CreatedAlike(hs: Handlers, db: Db, command: CommandId, a: Attempt, stream: Uuid)
    requires a.unpacks && a.route.Some? && !IsBusy(db, a)
    ensures var i, tx := a.route.value, Attempted(hs, db, command, 0, a, stream);
      var view := if i in db.instances then db else Created(db, i);
      var d := Decide(hs(i), view, i, RowOf(db, i), a.handle);
      && StreamOf(view, stream) == StreamOf(db, stream)
      && (d.None? <==> HasFailed(hs, db, a))
      && (d.Some? ==>
            && tx.outcome.value.Complete? && tx.outcome.value.events == d.value.events
            && Committed(view, Handled(command, Some(i), RowOf(db, i), stream, StreamOf(db, stream).next,
                                       d.value.events, hs(i).marshal(d.value.root)))
               == Committed(db, tx))
  {
    var i, tx := a.route.value, Attempted(hs, db, command, 0, a, stream);
    CreatedLoads(hs(i), db, i, RowOf(db, i), stream);
    if i !in db.instances && tx.outcome.value.Complete? {
      CreatedCommits(db, tx);
    }
  }

  /** What remains to be committed once HandleDelivery has returned. */
  lemma {:induction false} SettledAlike(hs: Handlers, db: Db, after: Db, command: CommandId, failures: nat, a: Attempt,
                                        stream: Uuid)
    requires IsBusy(db, a) ==> after == db
    requires HasFailed(hs, db, a) ==> LeavesRow(db, after, a) && after.commands == db.commands
    ensures var settled := Attempted(hs, db, command, failures, a, stream);
      if IsBusy(db, a) then Committed(db, settled) == after.(commands := after.commands[command := failures])
      else if HasFailed(hs, db, a) then
        Committed(db, settled) == after.(commands := after.commands[command := failures + 1])
      else Committed(db, settled) == Committed(db, Attempted(hs, db, command, 0, a, stream))
  {
  }

  /** The statements of complete_with_events, one after the other, are the commit. */
  lemma {:induction false} CompletedInSteps(db: Db, command: CommandId, i: InstanceId, stream: Uuid, events: seq<Event>,
                                            snapshot: Option<Blob>)
    requires events != [] && i in db.instances
    ensures var bound, row := StreamOf(db, stream), db.instances[i].(stream := Some(stream));
      var next := bound.next + |events|;
      var saved := if snapshot.Some? then row.(snapshot := Some(Snapshot(next - 1, snapshot.value))) else row;
      var rows := bound.rows + Batch(Completion(command, Some(i), stream, events), bound.next);
      var after := Committed(db, Handled(command, Some(i), db.instances[i], stream, bound.next, events, snapshot));
      && after.streams == db.streams[stream := bound][stream := EventStream(next, rows)]
      && after.instances == db.instances[i := row][i := saved]
      && after.commands == db.commands - {command}
      && Completes(db, after, command, Some(i), stream, events, snapshot)
  {
    var base := StreamOf(db, stream).next;
    CommitCompletes(db, Handled(command, Some(i), db.instances[i], stream, base, events, snapshot));
  }

  class Tables {
    var streams: map<Uuid, EventStream>
    var instances: map<InstanceId, Instance>
    var commands: map<CommandId, nat>

    function Contents(): Db
      reads this
    {
      Db(streams, instances, commands)
    }

    /** instances.stream_id refers to a stream. */
    ghost predicate Referential()
      reads this
    {
      forall i :: i in instances && instances[i].stream.Some? ==> instances[i].stream.value in streams
    }

    constructor ()
      ensures Contents() == Db(map[], map[], map[])
    {
      streams, instances, commands := map[], map[], map[];
    }

    // ---- eventstream --------------------------------------------------------------------

    /** eventstream.append, to a stream that exists. */
    method Append(stream: Uuid, cause: CommandId, instance: Option<InstanceId>, events: seq<Event>) returns (next: nat)
      requires stream in streams
      modifies this`streams
      ensures next == old(streams)[stream].next + |events|
      ensures streams == old(streams)[stream :=
        EventStream(next, old(streams)[stream].rows + Batch(Completion(cause, instance, stream, events),
          old(streams)[stream].next))]
      ensures Gains(old(streams)[stream], streams[stream], cause, instance, events)
    {
      var base := streams[stream].next;
      next := base + |events|;
      var rows := seq(|events|, k requires 0 <= k < |events| => Row(base + k, instance, events[k], cause));
      assert rows == Batch(Completion(cause, instance, stream, events), base);
      streams := streams[stream := EventStream(next, streams[stream].rows + rows)];
    }

    /** The first query of acquire_for_write. */
    method Shortest(free: set<Uuid>) returns (stream: Uuid)
      requires free != {} && free <= streams.Keys
      ensures stream in free && forall s :: s in free ==> streams[stream].next <= streams[s].next
    {
      stream :| stream in free;
      var left := free - {stream};
      while left != {}
        invariant left <= free && stream in free
        invariant forall s :: s in free - left ==> streams[stream].next <= streams[s].next
        decreases left
      {
        var s :| s in left;
        if streams[s].next < streams[stream].next {
          stream := s;
        }
        left := left - {s};
      }
    }

    /** eventstream.acquire_for_write. */
    method AcquireForWrite(c: Contention) returns (stream: Uuid)
      requires Plausible(streams, c)
      modifies this`streams
      ensures Acquired(old(streams), c, stream)
      ensures streams == old(streams)[stream := StreamOf(old(Contents()), stream)]
      ensures forall s :: s in old(streams) && s !in c.locked ==>
        stream in old(streams) && stream !in c.locked && old(streams)[stream].next <= old(streams)[s].next
      ensures stream !in old(streams) ==>
        stream == c.created && forall s :: s in old(streams) ==> s in c.locked && 0 < old(streams)[s].next
      ensures stream in c.locked && stream in old(streams) ==>
        stream == c.granted && exists s :: s in old(streams) && old(streams)[s].next == 0
    {
      var free := streams.Keys - c.locked;
      if free != {} {
        stream := Shortest(free);
        return;
      }
      assert forall s :: s in streams ==> s !in free;
      if exists s :: s in streams && streams[s].next == 0 {
        return c.granted;
      }
      stream := c.created;
      streams := streams[stream := EventStream(0, [])];
    }

    // ---- commandqueue -------------------------------------------------------------------

    /** commandqueue.remove, which raises an exception if there is no such command. */
    method Remove(command: CommandId) returns (ok: bool)
      modifies this`commands
      ensures ok <==> command in old(commands)
      ensures commands == old(commands) - {command}
    {
      ok := command in commands;
      commands := commands - {command};
    }

    /** PostponeCommandDelivery, which is an error if there is no such command. */
    method PostponeDelivery(command: CommandId, failures: nat) returns (ok: bool)
      modifies this`commands
      ensures ok <==> command in old(commands)
      ensures commands == if ok then old(commands)[command := failures] else old(commands)
    {
      ok := command in commands;
      if ok {
        commands := commands[command := failures];
      }
    }

    // ---- aggregate ------------------------------------------------------------------------

    /** tryCreateInstance's upsert. */
    method TryCreateInstance(i: InstanceId) returns (row: Instance)
      modifies this`instances
      ensures row == RowOf(old(Contents()), i) && instances == old(instances)[i := row]
    {
      if i !in instances {
        instances := instances[i := BLANK];
      }
      row := instances[i];
    }

    /** aggregate.complete_without_events. */
    method CompleteWithoutEvents(command: CommandId, i: InstanceId) returns (ok: bool)
      requires i in instances
      modifies this`instances, this`commands
      ensures ok <==> command in old(commands)
      ensures Contents() == Committed(old(Contents()), Handled(command, Some(i), old(instances)[i], 0, 0, [], None))
      ensures Completes(old(Contents()), Contents(), command, Some(i), 0, [], None)
    {
      if instances[i].stream.None? {
        instances := instances - {i};
      }
      ok := Remove(command);
    }

    /** complete_with_events acquires a stream for an instance that is bound to none. */
    method BindStream(i: InstanceId, bound: Option<Uuid>, c: Contention) returns (stream: Uuid)
      requires i in instances && bound == instances[i].stream && Plausible(streams, c)
      requires bound.Some? ==> bound.value in streams
      modifies this`streams, this`instances
      ensures if bound.Some? then stream == bound.value else Acquired(old(streams), c, stream)
      ensures streams == old(streams)[stream := StreamOf(old(Contents()), stream)]
      ensures instances == old(instances)[i := old(instances)[i].(stream := Some(stream))]
    {
      if bound.None? {
        stream := AcquireForWrite(c);
        instances := instances[i := instances[i].(stream := Some(stream))];
      } else {
        stream := bound.value;
      }
    }

    /** aggregate.complete_with_events, given the stream that the instance was bound to
        when it was loaded. */
    method CompleteWithEvents(command: CommandId, i: InstanceId, bound: Option<Uuid>, snapshot: Option<Blob>,
                              events: seq<Event>, c: Contention)
      returns (ok: bool, stream: Uuid)
      requires events != [] && i in instances && bound == instances[i].stream && Plausible(streams, c)
      requires bound.Some? ==> bound.value in streams
      modifies this
      ensures ok <==> command in old(commands)
      ensures if bound.Some? then stream == bound.value else Acquired(old(streams), c, stream)
      ensures var base := StreamOf(old(Contents()), stream).next;
        Contents() == Committed(old(Contents()), Handled(command, Some(i), old(instances)[i], stream, base,
          events, snapshot))
      ensures Completes(old(Contents()), Contents(), command, Some(i), stream, events, snapshot)
    {
      ghost var before := Contents();
      stream := BindStream(i, bound, c);
      var next := Append(stream, command, Some(i), events);
      CompletedInSteps(before, command, i, stream, events, snapshot);
      if snapshot.Some? {
        instances := instances[i := instances[i].(snapshot := Some(Snapshot(next - 1, snapshot.value)))];
      }
      ok := Remove(command);
    }

    /** tryLockInstance and tryCreateInstance: None is ErrBusy. */
    method LockInstance(i: InstanceId, contended: bool) returns (row: Option<Instance>)
      modifies this`instances
      ensures row == if contended && i in old(instances) then None else Some(RowOf(old(Contents()), i))
      ensures instances == if row.Some? then old(instances)[i := row.value] else old(instances)
    {
      if i in instances {
        return if contended then None else Some(instances[i]);
      }
      var created := TryCreateInstance(i);
      return Some(created);
    }

    /** The aggregate driver's HandleDelivery, from the handler's success on. */
    method Complete(h: Handler, command: CommandId, i: InstanceId, row: Instance, root: Root, events: seq<Event>,
                    c: Contention)
      returns (ok: bool, stream: Uuid)
      requires i in instances && instances[i] == row && Referential() && Plausible(streams, c)
      modifies this
      ensures ok <==> command in old(commands)
      ensures events != [] ==>
        if row.stream.Some? then stream == row.stream.value else Acquired(old(streams), c, stream)
      ensures var base := StreamOf(old(Contents()), stream).next;
        Contents() == Committed(old(Contents()), Handled(command, Some(i), row, stream, base, events, h.marshal(root)))
    {
      if events != [] {
        ok, stream := CompleteWithEvents(command, i, row.stream, h.marshal(root), events, c);
      } else {
        stream := 0;
        ok := CompleteWithoutEvents(command, i);
      }
    }

    /** The aggregate driver's HandleDelivery. It can only fail before anything but an
        unbound row for the instance has been written, and it is only busy before that. */
    method HandleDelivery(hs: Handlers, command: CommandId, a: Attempt) returns (r: Result, stream: Uuid)
      requires Referential() && Plausible(streams, a.streams)
      modifies this
      ensures r.Error? ==> command !in old(commands)
      ensures r.Done? ==>
        && command in old(commands)
        && Contents() == Committed(old(Contents()), Attempted(hs, old(Contents()), command, 0, a, stream))
      ensures r.ErrBusy? <==> IsBusy(old(Contents()), a)
      ensures r.ErrFailed? <==> HasFailed(hs, old(Contents()), a)
      ensures r.ErrBusy? ==> Contents() == old(Contents())
      ensures r.ErrFailed? ==> LeavesRow(old(Contents()), Contents(), a) && commands == old(commands)
      ensures r.Done? ==> Takes(hs, old(Contents()), Contents(), command, a, stream)
      ensures r.Done? && streams != old(streams) ==> GoesTo(old(Contents()), a, stream)
    {
      stream := 0;
      if !a.unpacks || a.route.None? {
        return ErrFailed, stream;
      }
      var i := a.route.value;
      var row := LockInstance(i, a.contended);
      if row.None? {
        return ErrBusy, stream;
      }
      ghost var view := Contents();
      assert view == if i in old(instances) then old(Contents()) else Created(old(Contents()), i);
      var d := RunHandler(hs(i), Contents(), i, row.value, a.handle);
      if d.None? {
        CreatedAlike(hs, old(Contents()), command, a, stream);
        return ErrFailed, stream;
      }
      ghost var before := old(Contents());
      var ok;
      ok, stream := Complete(hs(i), command, i, row.value, d.value.root, d.value.events, a.streams);
      CreatedAlike(hs, before, command, a, stream);
      AttemptedMeans(hs, before, command, 0, a, stream);
      r := if ok then Done else Error;
    }

    // ---- integration ----------------------------------------------------------------------

    /** integration.complete_with_events, or complete_without_events if there are none. */
    method CompleteIntegration(command: CommandId, events: seq<Event>, c: Contention) returns (ok: bool, stream: Uuid)
      requires Plausible(streams, c)
      modifies this
      ensures ok <==> command in old(commands)
      ensures events != [] ==> Acquired(old(streams), c, stream)
      ensures var base := StreamOf(old(Contents()), stream).next;
        Contents() == Committed(old(Contents()), Handled(command, None, BLANK, stream, base, events, None))
      ensures Completes(old(Contents()), Contents(), command, None, stream, events, None)
    {
      stream := 0;
      ok := Remove(command);
      if events != [] {
        stream := AcquireForWrite(c);
        var next := Append(stream, command, None, events);
      }
    }

    /** The integration driver's HandleDelivery, whose handler records `events`, or fails. */
    method HandleIntegration(command: CommandId, unpacks: bool, events: Option<seq<Event>>, c: Contention)
      returns (r: Result, stream: Uuid)
      requires Plausible(streams, c)
      modifies this
      ensures var tx := AttemptedIntegration(old(Contents()), command, 0, unpacks, events, stream);
        r.Done? ==> command in old(commands) && Contents() == Committed(old(Contents()), tx)
      ensures !r.ErrBusy? && (r.ErrFailed? <==> !unpacks || events.None?) && (r.Error? ==> command !in old(commands))
      ensures r.ErrFailed? ==> Contents() == old(Contents())
      ensures r.Done? ==> Completes(old(Contents()), Contents(), command, None, stream, events.value, None)
      ensures r.Done? && events.value != [] ==> Acquired(old(streams), c, stream)
    {
      stream := 0;
      if !unpacks || events.None? {
        return ErrFailed, stream;
      }
      var ok;
      ok, stream := CompleteIntegration(command, events.value, c);
      r := if ok then Done else Error;
    }

    // ---- messagepump ----------------------------------------------------------------------

    /** doHandle, once HandleDelivery has returned: whether the transaction commits. */
    method Settle(command: CommandId, failures: nat, r: Result) returns (committed: bool)
      modifies this`commands
      ensures committed <==> r.Done? || (!r.Error? && command in old(commands))
      ensures commands ==
        if committed && r.ErrFailed? then old(commands)[command := failures + 1]
        else if committed && r.ErrBusy? then old(commands)[command := failures]
        else old(commands)
    {
      match r
      case Done => return true;
      case ErrFailed =>
        committed := PostponeDelivery(command, failures + 1);
      case ErrBusy =>
        committed := PostponeDelivery(command, failures);
      case Error => return false;
    }

    /** doHandle with the aggregate driver: the transaction commits if the command is still
        queued, and then exactly what the attempt amounts to. */
    method DoHandle(hs: Handlers, command: CommandId, failures: nat, a: Attempt) returns (committed: bool, stream: Uuid)
      requires Referential() && Plausible(streams, a.streams)
      modifies this
      ensures committed <==> command in old(commands)
      ensures committed ==>
        Contents() == Committed(old(Contents()), Attempted(hs, old(Contents()), command, failures, a, stream))
      ensures committed && IsBusy(old(Contents()), a) ==>
        Contents() == old(Contents()).(commands := old(commands)[command := failures])
      ensures committed && HasFailed(hs, old(Contents()), a) ==>
        LeavesRow(old(Contents()), Contents(), a) && commands == old(commands)[command := failures + 1]
      ensures committed && !IsBusy(old(Contents()), a) && !HasFailed(hs, old(Contents()), a) ==>
        Takes(hs, old(Contents()), Contents(), command, a, stream)
    {
      var r;
      r, stream := HandleDelivery(hs, command, a);
      SettledAlike(hs, old(Contents()), Contents(), command, failures, a, stream);
      committed := Settle(command, failures, r);
    }

    /** doHandle with the integration driver. */
    method DoHandleIntegration(command: CommandId, failures: nat, unpacks: bool, events: Option<seq<Event>>,
                               c: Contention)
      returns (committed: bool, stream: Uuid)
      requires Plausible(streams, c)
      modifies this
      ensures committed <==> command in old(commands)
      ensures committed ==>
        Contents() == Committed(old(Contents()), AttemptedIntegration(old(Contents()), command, failures, unpacks,
          events, stream))
      ensures committed ==>
        if unpacks && events.Some? then
          Completes(old(Contents()), Contents(), command, None, stream, events.value, None)
        else Contents() == old(Contents()).(commands := old(commands)[command := failures + 1])
    {
      var r;
      r, stream := HandleIntegration(command, unpacks, events, c);
      committed := Settle(command, failures, r);
    }
  }

  // ---- Attempts and the transition system ------------------------------------------------

  lemma {:induction false} Extend(hs: Handlers, s: State, steps: seq<Step>, step: Step) returns (more: seq<Step>)
    requires Run(hs, s, steps) && Enabled(hs, StateAfter(hs, s, steps), step)
    ensures Run(hs, s, more) && StateAfter(hs, s, more) == Apply(hs, StateAfter(hs, s, steps), step)
  {
    more := steps + [step];
    assert more[..|more| - 1] == steps;
  }

  /** A worker's transaction that has only acquired its command. */
  ghost predicate Fresh(s: State, w: WorkerId, command: CommandId, failures: nat) {
    w in s.txs && s.txs[w] == Open(command, failures, None, BLANK, false, None, None)
  }

  /** The rows that the attempt needs are not locked by others. */
  ghost predicate Unlocked(s: State, a: Attempt, tx: Tx) {
    && (tx.Open? && tx.hold.Some? ==> InstanceRow(tx.hold.value) !in s.locks)
    && (Appends(tx) ==>
          && StreamRow(tx.outcome.value.stream) !in s.locks
          && (tx.row.stream.Some? ==> tx.outcome.value.stream == tx.row.stream.value))
  }

  /** What the driver does in one attempt is what a worker can do step by step, with other
      transactions anywhere in between; only its commit shows. */
  lemma {:induction false} AttemptIsRun(hs: Handlers, s: State, w: WorkerId, command: CommandId, failures: nat,
                                        a: Attempt, stream: Uuid)
    returns (steps: seq<Step>)
    requires Fresh(s, w, command, failures) && Unlocked(s, a, Attempted(hs, s.db, command, failures, a, stream))
    ensures Run(hs, s, steps)
    ensures var t := StateAfter(hs, s, steps);
      t.db == s.db && t.done == s.done && w in t.txs && t.txs[w] == Attempted(hs, s.db, command, failures, a, stream)
  {
    if !a.unpacks || a.route.None? {
      steps := Extend(hs, s, [], Act(w, Fail));
    } else if a.contended && a.route.value in s.db.instances {
      steps := Extend(hs, s, [], Act(w, Busy));
    } else {
      steps := Extend(hs, s, [], Act(w, Lock(a.route.value)));
      steps := LockedIsRun(hs, s, steps, w, command, failures, a, stream);
    }
  }

  lemma {:induction false} LockedIsRun(hs: Handlers, s: State, before: seq<Step>, w: WorkerId, command: CommandId,
                                       failures: nat, a: Attempt, stream: Uuid)
    returns (steps: seq<Step>)
    requires Run(hs, s, before) && a.unpacks && a.route.Some? && !(a.contended && a.route.value in s.db.instances)
    requires var i := a.route.value;
      var t := StateAfter(hs, s, before);
      && t.db == s.db && t.done == s.done && w in t.txs
      && t.txs[w] == Open(command, failures, Some(i), RowOf(s.db, i), i !in s.db.instances, None, None)
      && t.locks == s.locks[InstanceRow(i) := w]
    requires Unlocked(s, a, Attempted(hs, s.db, command, failures, a, stream))
    ensures Run(hs, s, steps)
    ensures var t := StateAfter(hs, s, steps);
      t.db == s.db && t.done == s.done && w in t.txs && t.txs[w] == Attempted(hs, s.db, command, failures, a, stream)
  {
    var i := a.route.value;
    var d := Decide(hs(i), s.db, i, RowOf(s.db, i), a.handle);
    steps := before;
    if Load(hs(i), s.db, i, RowOf(s.db, i)).Some? {
      steps := Extend(hs, s, steps, Act(w, LoadRoot));
    }
    if d.None? {
      steps := Extend(hs, s, steps, Act(w, Fail));
    } else {
      steps := Extend(hs, s, steps, Act(w, Record(d.value.events, stream)));
    }
  }
}
