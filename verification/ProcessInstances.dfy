/** Process instances and their deadlines: transactions that deliver events and deadlines
    to an instance, save it or end it
    (internal/process/instancestate.go, deadlinepump.go and sink.go,
    internal/messagepump/pump.go). */
module ProcessInstances {
  import opened Stream

  type InstanceId = nat      // a handler's key and the instance's ID
  type DeadlineId = nat
  type CommandId = nat
  type Key = nat             // an idempotency key
  type WorkerId = nat
  type Blob = int

  datatype Instance = Instance(ended: bool, state: Option<Blob>)

  datatype Deadline = Deadline(instance: InstanceId, failures: nat)

  type Deadlines = map<DeadlineId, Deadline>

  /** A command to be queued. */
  datatype Command = Command(id: CommandId, key: Option<Key>)

  /** `keys` holds the command that first claimed each idempotency key, queued or not. */
  datatype Queue = Queue(commands: set<CommandId>, keys: map<Key, CommandId>)

  datatype Db = Db(instances: map<InstanceId, Instance>, deadlines: Deadlines, queue: Queue)

  const BLANK := Instance(false, None)

  function RowOf(db: Db, i: InstanceId): Instance {
    if i in db.instances then db.instances[i] else BLANK
  }

  /** What the handler asked for through its scope, and what MarshalBinary makes of the
      root afterwards, None if it fails. */
  datatype Scope = Scope(commands: seq<Command>, deadlines: seq<DeadlineId>, ended: bool, mutated: bool,
                         marshaled: Option<Blob>)

  /** Fails: the message, the root or the state can not be unmarshaled, or the handler
      fails. FindsEnded: the instance has ended. */
  datatype Reaction = Fails | FindsEnded | Handles(scope: Scope)

  predicate Distinct(ids: seq<nat>) {
    forall j, k :: 0 <= j < k < |ids| ==> ids[j] != ids[k]
  }

  predicate Unused(ids: seq<nat>, used: set<nat>) {
    Distinct(ids) && forall k :: 0 <= k < |ids| ==> ids[k] !in used
  }

  // ---- The command queue -----------------------------------------------------------------

  /** The key was claimed before, so the command is discarded. */
  predicate Discarded(keys: map<Key, CommandId>, c: Command) {
    c.key.Some? && c.key.value in keys
  }

  /** commandqueue.add. None is a violation of a unique index. */
  function Add(q: Queue, c: Command): Option<Queue> {
    if Discarded(q.keys, c) then Some(q)
    else if c.id in q.commands || (c.key.Some? && c.id in q.keys.Values) then None
    else Some(Queue(q.commands + {c.id}, if c.key.Some? then q.keys[c.key.value := c.id] else q.keys))
  }

  function AddAll(q: Queue, cs: seq<Command>): Option<Queue> {
    if cs == [] then Some(q)
    else
      var r := AddAll(q, cs[..|cs| - 1]);
      if r.None? then None else Add(r.value, cs[|cs| - 1])
  }

  /** Nothing was lost from the queue. */
  ghost predicate Grew(q: Queue, t: Queue) {
    q.commands <= t.commands && forall k :: k in q.keys ==> k in t.keys && t.keys[k] == q.keys[k]
  }

  lemma {:induction false} AddAllFails(q: Queue, cs: seq<Command>, n: nat)
    requires n <= |cs| && AddAll(q, cs[..n]).None?
    ensures AddAll(q, cs).None?
    decreases |cs|
  {
    if n == |cs| {
      assert cs[..n] == cs;
    } else {
      assert cs[..|cs| - 1][..n] == cs[..n];
      AddAllFails(q, cs[..|cs| - 1], n);
    }
  }

  /** Every command is queued, unless another has claimed its key; every key is claimed, by
      a command that is queued if it was not claimed before; and nothing else is queued. */
  ghost predicate Queues(q: Queue, t: Queue, cs: seq<Command>) {
    && Grew(q, t)
    && (forall k :: 0 <= k < |cs| ==>
          match cs[k].key
          case None => cs[k].id in t.commands
          case Some(x) => x in t.keys && (x !in q.keys ==> t.keys[x] in t.commands))
    && (forall id :: id in t.commands && id !in q.commands ==> exists k :: 0 <= k < |cs| && Claims(q, cs[k], id))
    && (forall x :: x in t.keys && x !in q.keys ==> exists k :: 0 <= k < |cs| && cs[k] == Command(t.keys[x], Some(x)))
  }

  predicate Claims(q: Queue, c: Command, id: CommandId) {
    c.id == id && !Discarded(q.keys, c)
  }

  lemma {:induction false} AddQueues(q: Queue, m: Queue, t: Queue, cs: seq<Command>, c: Command)
    requires Queues(q, m, cs) && Add(m, c) == Some(t)
    ensures Queues(q, t, cs + [c])
  {
    var all := cs + [c];
    assert all[|cs|] == c && forall k :: 0 <= k < |cs| ==> all[k] == cs[k];
    forall id | id in t.commands && id !in q.commands ensures exists k :: 0 <= k < |all| && Claims(q, all[k], id) {
      if id in m.commands {
        var k :| 0 <= k < |cs| && Claims(q, cs[k], id);
        assert Claims(q, all[k], id);
      } else {
        assert Claims(q, all[|cs|], id);
      }
    }
    forall x | x in t.keys && x !in q.keys
      ensures exists k :: 0 <= k < |all| && all[k] == Command(t.keys[x], Some(x))
    {
      if x in m.keys {
        var k :| 0 <= k < |cs| && cs[k] == Command(m.keys[x], Some(x));
        assert all[k] == Command(t.keys[x], Some(x));
      }
    }
  }

  lemma {:induction false} AddAllQueues(q: Queue, cs: seq<Command>)
    requires AddAll(q, cs).Some?
    ensures Queues(q, AddAll(q, cs).value, cs)
    decreases |cs|
  {
    if cs != [] {
      var init := cs[..|cs| - 1];
      AddAllQueues(q, init);
      AddQueues(q, AddAll(q, init).value, AddAll(q, cs).value, init, cs[|cs| - 1]);
      assert cs == init + [cs[|cs| - 1]];
    }
  }

  /** Adding commands leaves the queue as it was exactly if each one's key was claimed. */
  lemma {:induction false} AddAllIdle(q: Queue, cs: seq<Command>)
    requires AddAll(q, cs).Some?
    ensures AddAll(q, cs) == Some(q) <==> forall k :: 0 <= k < |cs| ==> Discarded(q.keys, cs[k])
    decreases |cs|
  {
    if cs != [] {
      var init, last := cs[..|cs| - 1], cs[|cs| - 1];
      var m := AddAll(q, init).value;
      AddAllQueues(q, init);
      AddAllIdle(q, init);
      assert Add(m, last) == Some(q) ==> Grew(m, q) && m.keys == q.keys && m == q;
      assert forall k :: 0 <= k < |init| ==> init[k] == cs[k];
      assert (forall k :: 0 <= k < |cs| ==> Discarded(q.keys, cs[k])) <==>
             (forall k :: 0 <= k < |init| ==> Discarded(q.keys, init[k])) && Discarded(q.keys, last);
    }
  }

  // ---- The effects of one delivery -------------------------------------------------

  function Scheduled(deadlines: Deadlines, i: InstanceId, ids: seq<DeadlineId>): Deadlines {
    map d | d in deadlines.Keys + (set x | x in ids) :: if d in ids then Deadline(i, 0) else deadlines[d]
  }

  function Without(deadlines: Deadlines, i: InstanceId): Deadlines {
    map d | d in deadlines && deadlines[d].instance != i :: deadlines[d]
  }

  predicate Unsaved(scope: Scope) {
    !scope.ended && scope.mutated && scope.marshaled.None?
  }

  /** The tables after a handler has run, up to the point at which saving its root failed,
      if it did. */
  function Reacted(db: Db, i: InstanceId, scope: Scope): Db
    requires AddAll(db.queue, scope.commands).Some?
  {
    var queued := db.(queue := AddAll(db.queue, scope.commands).value);
    if scope.ended then
      queued.(instances := db.instances[i := Instance(true, None)], deadlines := Without(db.deadlines, i))
    else if Unsaved(scope) then
      queued
    else
      queued.(instances := if scope.mutated then db.instances[i := Instance(false, scope.marshaled)] else db.instances,
              deadlines := Scheduled(db.deadlines, i, scope.deadlines))
  }

  /** Whether the statements of Reacted can be executed: the IDs are primary keys. */
  predicate Insertable(db: Db, scope: Scope) {
    && AddAll(db.queue, scope.commands).Some?
    && (scope.ended || Unsaved(scope) || Unused(scope.deadlines, db.deadlines.Keys))
  }

  function Postponed(db: Db, d: DeadlineId, failures: nat): Db {
    if d in db.deadlines then db.(deadlines := db.deadlines[d := db.deadlines[d].(failures := failures)]) else db
  }

  predicate Failed(r: Reaction) {
    !r.Handles? || Unsaved(r.scope)
  }

  /** The tables once a deadline has been delivered, or the attempt has failed. */
  function Attempted(db: Db, d: DeadlineId, failures: nat, i: InstanceId, r: Reaction): Db
    requires r.Handles? ==> AddAll(db.queue, r.scope.commands).Some?
  {
    var t := if r.Handles? then Reacted(db, i, r.scope) else db;
    if Failed(r) then Postponed(t, d, failures + 1)
    else t.(deadlines := t.deadlines - {d})
  }

  function Upserted(db: Db, i: InstanceId): Db {
    db.(instances := db.instances[i := RowOf(db, i)])
  }

  /** The tables once an event has been dispatched. */
  function Dispatched(db: Db, i: InstanceId, r: Reaction): Db
    requires r.Handles? ==> AddAll(db.queue, r.scope.commands).Some?
  {
    if r.Handles? then Reacted(Upserted(db, i), i, r.scope) else Upserted(db, i)
  }

  /** The whole effect of a handler that has run for instance `i`, which had not ended: its
      commands are queued; the instance is ended, and then has neither state nor deadlines;
      or its state is saved if it changed, the deadlines that it scheduled are there, and
      those in `fired` are gone. Nothing else changes. */
  ghost predicate Effects(before: Db, after: Db, i: InstanceId, scope: Scope, fired: set<DeadlineId>) {
    && Some(after.queue) == AddAll(before.queue, scope.commands)
    && i in after.instances && after.instances == before.instances[i := after.instances[i]]
    && after.instances[i].ended == scope.ended
    && (scope.ended ==>
          && after.instances[i].state.None?
          && forall d :: d in after.deadlines <==> d in before.deadlines && before.deadlines[d].instance != i)
    && (!scope.ended ==>
          && after.instances[i].state == (if scope.mutated then scope.marshaled else RowOf(before, i).state)
          && (forall d :: d in scope.deadlines ==> d in after.deadlines && after.deadlines[d] == Deadline(i, 0))
          && forall d :: d in after.deadlines <==> d in scope.deadlines || (d in before.deadlines && d !in fired))
    && (forall d :: d in before.deadlines && d in after.deadlines ==> after.deadlines[d] == before.deadlines[d])
  }

  lemma {:induction false} ReactedEffects(db: Db, i: InstanceId, scope: Scope)
    requires i in db.instances && !db.instances[i].ended && Insertable(db, scope) && !Unsaved(scope)
    ensures Effects(db, Reacted(db, i, scope), i, scope, {})
  {
  }

  lemma {:induction false} DispatchedEffects(db: Db, i: InstanceId, scope: Scope)
    requires !RowOf(db, i).ended && Insertable(db, scope) && !Unsaved(scope)
    ensures Effects(db, Dispatched(db, i, Handles(scope)), i, scope, {})
  {
    ReactedEffects(Upserted(db, i), i, scope);
  }

  lemma {:induction false} AttemptedEffects(db: Db, d: DeadlineId, failures: nat, i: InstanceId, scope: Scope)
    requires d in db.deadlines && db.deadlines[d].instance == i
    requires i in db.instances && !db.instances[i].ended && Insertable(db, scope) && !Unsaved(scope)
    ensures Effects(db, Attempted(db, d, failures, i, Handles(scope)), i, scope, {d})
  {
    ReactedEffects(db, i, scope);
  }

  // ---- The statements, one by one ------------------------------------------------------

  datatype Result = Done | ErrFailed | Error

  class Tables {
    var instances: map<InstanceId, Instance>
    var deadlines: Deadlines
    var commands: set<CommandId>
    var keys: map<Key, CommandId>

    function Contents(): Db
      reads this
    {
      Db(instances, deadlines, Queue(commands, keys))
    }

    constructor ()
      ensures Contents() == Db(map[], map[], Queue({}, map[]))
    {
      instances, deadlines, commands, keys := map[], map[], {}, map[];
    }

    /** loadInstance's upsert, which locks the row. */
    method LoadInstance(i: InstanceId) returns (row: Instance)
      modifies this`instances
      ensures row == RowOf(old(Contents()), i) && instances == old(instances)[i := row]
    {
      if i !in instances {
        instances := instances[i := BLANK];
      }
      row := instances[i];
    }

    /** commandqueue.add. */
    method AddCommand(c: Command) returns (ok: bool)
      modifies this`commands, this`keys
      ensures ok <==> Add(old(Contents()).queue, c).Some?
      ensures ok ==> Contents().queue == Add(old(Contents()).queue, c).value
      ensures c.key.Some? && c.key.value in old(keys) ==> ok && commands == old(commands) && keys == old(keys)
      ensures !(c.key.Some? && c.key.value in old(keys)) ==>
        && (ok <==> c.id !in old(commands) && (c.key.Some? ==> c.id !in old(keys).Values))
        && (ok ==> commands == old(commands) + {c.id})
        && (ok ==> keys == if c.key.Some? then old(keys)[c.key.value := c.id] else old(keys))
    {
      if c.key.Some? {
        if c.key.value in keys {
          return true;
        }
        if c.id in keys.Values {
          return false;
        }
      }
      if c.id in commands {
        return false;
      }
      if c.key.Some? {
        keys := keys[c.key.value := c.id];
      }
      commands := commands + {c.id};
      return true;
    }

    method AddCommandsToQueue(cs: seq<Command>) returns (ok: bool)
      modifies this`commands, this`keys
      ensures ok <==> AddAll(old(Contents()).queue, cs).Some?
      ensures ok ==> Contents().queue == AddAll(old(Contents()).queue, cs).value
      ensures ok ==> Queues(old(Contents()).queue, Contents().queue, cs)
    {
      for k := 0 to |cs|
        invariant AddAll(old(Contents()).queue, cs[..k]) == Some(Contents().queue)
      {
        assert cs[..k + 1][..k] == cs[..k];
        ok := AddCommand(cs[k]);
        if !ok {
          AddAllFails(old(Contents()).queue, cs, k + 1);
          return;
        }
      }
      assert cs[..|cs|] == cs;
      AddAllQueues(old(Contents()).queue, cs);
      return true;
    }

    method PersistDeadlines(i: InstanceId, ids: seq<DeadlineId>) returns (ok: bool)
      modifies this`deadlines
      ensures ok <==> Unused(ids, old(deadlines).Keys)
      ensures ok ==> deadlines == Scheduled(old(deadlines), i, ids)
    {
      for k := 0 to |ids|
        invariant deadlines == Scheduled(old(deadlines), i, ids[..k])
        invariant Unused(ids[..k], old(deadlines).Keys)
      {
        assert ids[..k + 1] == ids[..k] + [ids[k]];
        if ids[k] in deadlines {
          return false;
        }
        deadlines := deadlines[ids[k] := Deadline(i, 0)];
      }
      assert ids[..|ids|] == ids;
      return true;
    }

    method EndInstance(i: InstanceId)
      modifies this`instances, this`deadlines
      ensures instances == old(instances)[i := Instance(true, None)]
      ensures deadlines == Without(old(deadlines), i)
    {
      instances := instances[i := Instance(true, None)];
      deadlines := map d | d in deadlines && deadlines[d].instance != i :: deadlines[d];
    }

    method SaveInstance(i: InstanceId, marshaled: Option<Blob>) returns (r: Result)
      requires i in instances && !instances[i].ended
      modifies this`instances
      ensures r == if marshaled.Some? then Done else ErrFailed
      ensures instances == if marshaled.Some? then old(instances)[i := Instance(false, marshaled)] else old(instances)
    {
      if marshaled.None? {
        return ErrFailed;
      }
      instances := instances[i := instances[i].(state := marshaled)];
      return Done;
    }

    /** What sink.dispatch and HandleDelivery have in common, once the handler has run. */
    method ApplyScope(i: InstanceId, scope: Scope) returns (r: Result)
      requires i in instances && !instances[i].ended
      modifies this
      ensures r == if !Insertable(old(Contents()), scope) then Error else if Unsaved(scope) then ErrFailed else Done
      ensures !r.Error? ==> Contents() == Reacted(old(Contents()), i, scope)
    {
      var ok := AddCommandsToQueue(scope.commands);
      if !ok {
        return Error;
      }
      if scope.ended {
        EndInstance(i);
        return Done;
      }
      if scope.mutated {
        r := SaveInstance(i, scope.marshaled);
        if r != Done {
          return;
        }
      }
      ok := PersistDeadlines(i, scope.deadlines);
      return if ok then Done else Error;
    }

    /** DeadlinePump.HandleDelivery. */
    method HandleDelivery(d: DeadlineId, i: InstanceId, reaction: Reaction) returns (r: Result)
      requires d in deadlines && deadlines[d].instance == i
      requires i in instances && (reaction.FindsEnded? <==> instances[i].ended)
      modifies this
      ensures r.Error? <==> reaction.Handles? && !Insertable(old(Contents()), reaction.scope)
      ensures Failed(reaction) && !r.Error? ==>
        && r.ErrFailed?
        && Contents() == if reaction.Handles? then Reacted(old(Contents()), i, reaction.scope) else old(Contents())
      ensures !Failed(reaction) && !r.Error? ==>
        r.Done? && Contents() == Attempted(old(Contents()), d, 0, i, reaction)
      ensures r.Done? ==> Effects(old(Contents()), Contents(), i, reaction.scope, {d})
      ensures r.ErrFailed? ==> instances == old(instances) && deadlines == old(deadlines)
    {
      if !Failed(reaction) && Insertable(Contents(), reaction.scope) {
        AttemptedEffects(Contents(), d, 0, i, reaction.scope);
      }
      var row := LoadInstance(i);
      if row.ended || reaction.Fails? {
        return ErrFailed;
      }
      r := ApplyScope(i, reaction.scope);
      if r.Done? && !reaction.scope.ended {
        deadlines := deadlines - {d};
      }
    }

    /** MessagePump.doHandle with the deadline pump as its driver: the transaction commits
        unless HandleDelivery returns an error other than ErrFailed. */
    method DoHandle(d: DeadlineId, i: InstanceId, reaction: Reaction) returns (committed: bool)
      requires d in deadlines && deadlines[d].instance == i
      requires i in instances && (reaction.FindsEnded? <==> instances[i].ended)
      modifies this
      ensures committed <==> (reaction.Handles? ==> Insertable(old(Contents()), reaction.scope))
      ensures committed ==> Contents() == Attempted(old(Contents()), d, old(deadlines)[d].failures, i, reaction)
      ensures committed && !Failed(reaction) ==> Effects(old(Contents()), Contents(), i, reaction.scope, {d})
      ensures committed && Failed(reaction) ==>
        instances == old(instances) && deadlines == old(deadlines)[d := Deadline(i, old(deadlines)[d].failures + 1)]
    {
      var failures := deadlines[d].failures;
      var r := HandleDelivery(d, i, reaction);
      if r.Error? {
        return false;
      }
      if r.ErrFailed? && d in deadlines {
        deadlines := deadlines[d := deadlines[d].(failures := failures + 1)];
      }
      return true;
    }

    /** Sink.dispatch, once the event has been routed to an instance. */
    method Dispatch(i: InstanceId, reaction: Reaction) returns (r: Result)
      requires reaction.FindsEnded? <==> RowOf(Contents(), i).ended
      modifies this
      ensures r.Done? <==>
        || reaction.FindsEnded?
        || (reaction.Handles? && !Unsaved(reaction.scope) && Insertable(old(Contents()), reaction.scope))
      ensures r.Error? <==> reaction.Handles? && !Insertable(old(Contents()), reaction.scope)
      ensures r.Done? ==> Contents() == Dispatched(old(Contents()), i, reaction)
      ensures r.Done? && reaction.FindsEnded? ==> Contents() == old(Contents())
      ensures r.Done? && reaction.Handles? ==> Effects(old(Contents()), Contents(), i, reaction.scope, {})
    {
      if reaction.Handles? && !Unsaved(reaction.scope) && Insertable(Contents(), reaction.scope) {
        DispatchedEffects(Contents(), i, reaction.scope);
      }
      var row := LoadInstance(i);
      if row.ended {
        return Done;
      }
      if reaction.Fails? {
        return ErrFailed;
      }
      r := ApplyScope(i, reaction.scope);
    }
  }

  // ---- Concurrent deliveries -------------------------------------------------------

  datatype Message = AnEvent | ADeadline(deadline: DeadlineId, failures: nat)

  /** A transaction that has locked an instance, and the deadline that it delivers. */
  datatype Tx = Idle | Open(instance: InstanceId, message: Message, row: Instance, reaction: Option<Reaction>)

  datatype State = State(db: Db, locks: map<InstanceId, WorkerId>, txs: map<WorkerId, Tx>)

  datatype Move =
    | TakeEvent(instance: InstanceId)
    | TakeDeadline(deadline: DeadlineId)        // AcquireDelivery
    | React(reaction: Reaction)
    | Commit
    | Rollback

  datatype Step =
    | Begin(worker: WorkerId)
    | Consume(command: CommandId)               // a command is handled elsewhere
    | Act(worker: WorkerId, move: Move)

  ghost predicate MoveEnabled(s: State, tx: Tx, m: Move) {
    match m
    case TakeEvent(i) => tx.Idle? && i !in s.locks
    case TakeDeadline(d) =>
      && tx.Idle? && d in s.db.deadlines && s.db.deadlines[d].instance in s.db.instances
      && s.db.deadlines[d].instance !in s.locks
    case React(r) => tx.Open? && tx.reaction.None? && (if tx.row.ended then r.FindsEnded? else !r.FindsEnded?)
    case Commit =>
      && tx.Open? && tx.reaction.Some?
      && (tx.reaction.value.Handles? ==> Insertable(s.db, tx.reaction.value.scope))
      && (tx.message.AnEvent? ==> tx.reaction.value.FindsEnded? || !Failed(tx.reaction.value))
    case Rollback => tx.Open?
  }

  ghost function Moved(s: State, tx: Tx, m: Move): Tx
    requires MoveEnabled(s, tx, m)
  {
    match m
    case TakeEvent(i) => Open(i, AnEvent, RowOf(s.db, i), None)
    case TakeDeadline(d) =>
      var Deadline(i, failures) := s.db.deadlines[d];
      Open(i, ADeadline(d, failures), RowOf(s.db, i), None)
    case React(r) => tx.(reaction := Some(r))
    case _ => Idle
  }

  /** The tables once a transaction has committed. */
  ghost function Committed(db: Db, tx: Tx): Db
    requires tx.Open? && tx.reaction.Some?
    requires tx.reaction.value.Handles? ==> AddAll(db.queue, tx.reaction.value.scope.commands).Some?
  {
    match tx.message
    case AnEvent => Dispatched(db, tx.instance, tx.reaction.value)
    case ADeadline(d, failures) => Attempted(db, d, failures, tx.instance, tx.reaction.value)
  }

  ghost predicate Enabled(s: State, step: Step) {
    match step
    case Begin(w) => w !in s.txs
    case Consume(_) => true
    case Act(w, m) => w in s.txs && MoveEnabled(s, s.txs[w], m)
  }

  ghost function Apply(s: State, step: Step): State
    requires Enabled(s, step)
  {
    match step
    case Begin(w) => s.(txs := s.txs[w := Idle])
    case Consume(c) => s.(db := s.db.(queue := s.db.queue.(commands := s.db.queue.commands - {c})))
    case Act(w, m) =>
      var tx := s.txs[w];
      var t := s.(txs := s.txs[w := Moved(s, tx, m)]);
      match m
      case TakeEvent(i) => t.(locks := s.locks[i := w])
      case TakeDeadline(d) => t.(locks := s.locks[s.db.deadlines[d].instance := w])
      case React(_) => t
      case Commit => t.(locks := s.locks - {tx.instance}, db := Committed(s.db, tx))
      case Rollback => t.(locks := s.locks - {tx.instance})
  }

  ghost predicate Init(s: State) {
    s.db == Db(map[], map[], Queue({}, map[])) && s.locks == map[] && s.txs == map[]
  }

  // ---- Invariant ---------------------------------------------------------------------------

  ghost predicate DbOk(db: Db) {
    && (forall i :: i in db.instances && db.instances[i].ended ==> db.instances[i].state.None?)
    && (forall d :: d in db.deadlines ==>
          db.deadlines[d].instance in db.instances && !db.instances[db.deadlines[d].instance].ended)
  }

  ghost predicate TxOk(s: State, w: WorkerId, tx: Tx) {
    tx.Open? ==>
      && tx.instance in s.locks && s.locks[tx.instance] == w
      && tx.row == RowOf(s.db, tx.instance)
      && (tx.message.ADeadline? ==>
            && tx.message.deadline in s.db.deadlines
            && s.db.deadlines[tx.message.deadline] == Deadline(tx.instance, tx.message.failures))
      && (tx.reaction.Some? ==> (tx.reaction.value.FindsEnded? <==> tx.row.ended))
  }

  ghost predicate Inv(s: State) {
    DbOk(s.db) && forall w :: w in s.txs ==> TxOk(s, w, s.txs[w])
  }

  /** What the commit of a transaction that holds instance `i` does to everything else. */
  ghost predicate Spares(db: Db, t: Db, i: InstanceId) {
    && (forall j :: j != i ==> RowOf(t, j) == RowOf(db, j))
    && (forall d :: d in db.deadlines && db.deadlines[d].instance != i ==>
          d in t.deadlines && t.deadlines[d] == db.deadlines[d])
  }

  lemma {:induction false} ReactedKeeps(db: Db, i: InstanceId, scope: Scope)
    requires DbOk(db) && i in db.instances && !db.instances[i].ended && Insertable(db, scope)
    ensures DbOk(Reacted(db, i, scope)) && Spares(db, Reacted(db, i, scope), i)
    ensures scope.ended <==> RowOf(Reacted(db, i, scope), i).ended
    ensures scope.ended ==> forall d :: d in Reacted(db, i, scope).deadlines ==>
      Reacted(db, i, scope).deadlines[d].instance != i
  {
  }

  lemma {:induction false} CommitKeeps(s: State, w: WorkerId)
    requires Inv(s) && Enabled(s, Act(w, Commit))
    ensures var tx, t := s.txs[w], Apply(s, Act(w, Commit)); DbOk(t.db) && Spares(s.db, t.db, tx.instance)
    ensures var tx, t := s.txs[w], Apply(s, Act(w, Commit));
      RowOf(s.db, tx.instance).ended ==> RowOf(t.db, tx.instance).ended
  {
    var tx := s.txs[w];
    assert TxOk(s, w, tx);
    if tx.reaction.value.Handles? {
      if tx.message.AnEvent? {
        ReactedKeeps(Upserted(s.db, tx.instance), tx.instance, tx.reaction.value.scope);
      } else {
        ReactedKeeps(s.db, tx.instance, tx.reaction.value.scope);
      }
    }
  }

  lemma {:induction false} StepKeepsTx(s: State, step: Step, w: WorkerId)
    requires Inv(s) && Enabled(s, step) && w in Apply(s, step).txs
    requires step.Act? && step.move.Commit? ==> Spares(s.db, Apply(s, step).db, s.txs[step.worker].instance)
    ensures TxOk(Apply(s, step), w, Apply(s, step).txs[w])
  {
    if step.Act? {
      assert TxOk(s, step.worker, s.txs[step.worker]);
    }
    if w in s.txs {
      assert TxOk(s, w, s.txs[w]);
    }
  }

  lemma {:induction false} StepKeeps(s: State, step: Step)
    requires Inv(s) && Enabled(s, step)
    ensures Inv(Apply(s, step))
    ensures forall i :: RowOf(s.db, i).ended ==> RowOf(Apply(s, step).db, i).ended
  {
    if step.Act? && step.move.Commit? {
      CommitKeeps(s, step.worker);
    }
    forall w | w in Apply(s, step).txs ensures TxOk(Apply(s, step), w, Apply(s, step).txs[w]) {
      StepKeepsTx(s, step, w);
    }
  }

  // ---- Runs --------------------------------------------------------------------------------

  ghost predicate Run(s: State, steps: seq<Step>)
    decreases |steps|, 0
  {
    steps == [] || (Run(s, steps[..|steps| - 1]) && Enabled(StateAfter(s, steps[..|steps| - 1]), steps[|steps| - 1]))
  }

  ghost function StateAfter(s: State, steps: seq<Step>): State
    requires Run(s, steps)
    decreases |steps|, 1
  {
    if steps == [] then s else Apply(StateAfter(s, steps[..|steps| - 1]), steps[|steps| - 1])
  }

  lemma {:induction false} RunKeeps(s: State, steps: seq<Step>)
    requires Inv(s) && Run(s, steps)
    ensures Inv(StateAfter(s, steps))
    ensures forall i :: RowOf(s.db, i).ended ==> RowOf(StateAfter(s, steps).db, i).ended
  {
    if steps != [] {
      var init, last := steps[..|steps| - 1], steps[|steps| - 1];
      RunKeeps(s, init);
      StepKeeps(StateAfter(s, init), last);
    }
  }

  /** The transaction, which has locked the instance, may take the reaction for its own. */
  ghost predicate Reacts(s: State, tx: Tx, i: InstanceId, r: Reaction) {
    tx.Open? && tx.instance == i && MoveEnabled(s, tx, React(r))
  }

  /** Once an instance has ended, it stays ended, without state and without deadlines,
      and no handler is run on it again. */
  lemma {:induction false} EndedForGood(s: State, before: seq<Step>, after: seq<Step>, i: InstanceId)
    requires Init(s) && Run(s, before) && Run(StateAfter(s, before), after)
    requires RowOf(StateAfter(s, before).db, i).ended
    ensures var t := StateAfter(StateAfter(s, before), after);
      && RowOf(t.db, i) == Instance(true, None)
      && (forall d :: d in t.db.deadlines ==> t.db.deadlines[d].instance != i)
      && forall w, r :: w in t.txs && Reacts(t, t.txs[w], i, r) ==> r.FindsEnded?
  {
    RunKeeps(s, before);
    RunKeeps(StateAfter(s, before), after);
    var t := StateAfter(StateAfter(s, before), after);
    forall w, r | w in t.txs && Reacts(t, t.txs[w], i, r) ensures r.FindsEnded? {
      assert TxOk(t, w, t.txs[w]);
    }
  }

  /** The deadline pump never finds that the instance has ended. */
  lemma {:induction false} BranchUnreachable(s: State, steps: seq<Step>, w: WorkerId, r: Reaction)
    requires Init(s) && Run(s, steps)
    requires var t := StateAfter(s, steps);
      w in t.txs && t.txs[w].Open? && t.txs[w].message.ADeadline? && MoveEnabled(t, t.txs[w], React(r))
    ensures !r.FindsEnded?
  {
    RunKeeps(s, steps);
    assert TxOk(StateAfter(s, steps), w, StateAfter(s, steps).txs[w]);
  }

  /** A delivered deadline disappears in the commit that carries all of its effects; one
      whose delivery failed stays, with one more failure. */
  lemma {:induction false} DeadlineCommit(s: State, w: WorkerId)
    requires Inv(s) && Enabled(s, Act(w, Commit)) && s.txs[w].message.ADeadline?
    ensures var tx, t := s.txs[w], Apply(s, Act(w, Commit)).db;
      var d, i, r := tx.message.deadline, tx.instance, tx.reaction.value;
      && d in s.db.deadlines
      && (d in t.deadlines <==> Failed(r))
      && (Failed(r) ==>
            && t.instances == s.db.instances
            && t.deadlines == s.db.deadlines[d := Deadline(i, s.db.deadlines[d].failures + 1)]
            && Some(t.queue) == if r.Handles? then AddAll(s.db.queue, r.scope.commands) else Some(s.db.queue))
      && (!Failed(r) ==> Effects(s.db, t, i, r.scope, {d}) && Queues(s.db.queue, t.queue, r.scope.commands))
  {
    var tx := s.txs[w];
    assert TxOk(s, w, tx);
    if !Failed(tx.reaction.value) {
      AttemptedEffects(s.db, tx.message.deadline, tx.message.failures, tx.instance, tx.reaction.value.scope);
      AddAllQueues(s.db.queue, tx.reaction.value.scope.commands);
    }
  }

  /** An event that was handled has all of its effects in one commit; one for an instance
      that has ended has none. */
  lemma {:induction false} EventCommit(s: State, w: WorkerId)
    requires Inv(s) && Enabled(s, Act(w, Commit)) && s.txs[w].message.AnEvent?
    ensures var tx, t := s.txs[w], Apply(s, Act(w, Commit)).db;
      var i, r := tx.instance, tx.reaction.value;
      && (r.FindsEnded? <==> RowOf(s.db, i).ended)
      && (r.FindsEnded? ==> t == s.db)
      && (!r.FindsEnded? ==>
            r.Handles? && Effects(s.db, t, i, r.scope, {}) && Queues(s.db.queue, t.queue, r.scope.commands))
  {
    var tx := s.txs[w];
    assert TxOk(s, w, tx);
    if tx.reaction.value.Handles? {
      DispatchedEffects(s.db, tx.instance, tx.reaction.value.scope);
      AddAllQueues(s.db.queue, tx.reaction.value.scope.commands);
    }
  }

  // ---- Failed deliveries -----------------------------------------------------------------

  /** The handler succeeded and executed a command whose idempotency key, if any, is new,
      but its root can not be marshaled. */
  predicate Leaks(r: Reaction, keys: map<Key, CommandId>) {
    r.Handles? && Unsaved(r.scope) && exists k :: 0 <= k < |r.scope.commands| && !Discarded(keys, r.scope.commands[k])
  }

  /** A failed delivery commits only its postponement exactly when it does not leak. */
  lemma {:induction false} FailureIsClean(s: State, w: WorkerId)
    requires Inv(s) && Enabled(s, Act(w, Commit)) && s.txs[w].message.ADeadline? && Failed(s.txs[w].reaction.value)
    ensures var tx, t := s.txs[w], Apply(s, Act(w, Commit)).db;
      t == Postponed(s.db, tx.message.deadline, tx.message.failures + 1) <==> !Leaks(tx.reaction.value, s.db.queue.keys)
  {
    var tx := s.txs[w];
    if tx.reaction.value.Handles? {
      AddAllIdle(s.db.queue, tx.reaction.value.scope.commands);
    }
  }

  /** Some run leads from s to t. */
  ghost predicate Reaches(s: State, t: State) {
    exists steps :: Run(s, steps) && StateAfter(s, steps) == t
  }

  lemma {:induction false} ReachesNext(s: State, t: State, step: Step)
    requires Reaches(s, t) && Enabled(t, step)
    ensures Reaches(s, Apply(t, step))
  {
    var steps :| Run(s, steps) && StateAfter(s, steps) == t;
    var more := steps + [step];
    assert more[..|more| - 1] == steps;
    assert Run(s, more) && StateAfter(s, more) == Apply(t, step);
  }

  /** A deadline that is due, and a worker that is free to deliver it. */
  ghost predicate Due(s: State, w: WorkerId, d: DeadlineId) {
    && w in s.txs && s.txs[w].Idle? && d in s.db.deadlines
    && var i := s.db.deadlines[d].instance; i in s.db.instances && !s.db.instances[i].ended && i !in s.locks
  }

  /** The n command IDs from `c` on. */
  function Ids(c: CommandId, n: nat): (ids: set<CommandId>)
    ensures |ids| == n && forall x :: x in ids ==> c <= x < c + n
  {
    if n == 0 then {} else Ids(c, n - 1) + {c + n - 1}
  }

  /** Between t and u, the deadline has failed n times more, and n more commands are queued. */
  ghost predicate Repeated(t: Db, u: Db, d: DeadlineId, c: CommandId, n: nat) {
    && d in t.deadlines && d in u.deadlines
    && u.deadlines[d] == Deadline(t.deadlines[d].instance, t.deadlines[d].failures + n)
    && u.instances == t.instances
    && u.queue == Queue(t.queue.commands + Ids(c, n), t.queue.keys)
  }

  // "true ==" keeps the verifier from taking the predicate apart wherever it is proved.
  lemma {:induction false} RepeatedOnce(t: Db, u: Db, v: Db, d: DeadlineId, c: CommandId, n: nat, next: CommandId)
    requires true == Repeated(t, u, d, c, n) && true == Repeated(u, v, d, next, 1) && next == c + n
    ensures Repeated(t, v, d, c, n + 1)
  {
    assert Ids(next, 0) == {};
    assert Ids(next, 1) == {next};
  }

  lemma {:induction false} OneCommand(q: Queue, c: CommandId)
    requires c !in q.commands
    ensures AddAll(q, [Command(c, None)]) == Some(Queue(q.commands + Ids(c, 1), q.keys))
  {
    assert Ids(c, 0) == {};
    assert AddAll(q, [Command(c, None)][..0]) == Some(q);
  }

  /** An attempt at a deadline whose root can not be marshaled, with a command of its own. */
  lemma {:induction false} LeakyAttempt(s: State, t: State, w: WorkerId, d: DeadlineId, c: CommandId) returns (u: State)
    requires Reaches(s, t) && Due(t, w, d) && c !in t.db.queue.commands
    ensures Reaches(s, u) && Due(u, w, d) && Repeated(t.db, u.db, d, c, 1)
  {
    OneCommand(t.db.queue, c);
    var take := Act(w, TakeDeadline(d));
    var react := Act(w, React(Handles(Scope([Command(c, None)], [], false, true, None))));
    ReachesNext(s, t, take);
    ReachesNext(s, Apply(t, take), react);
    ReachesNext(s, Apply(Apply(t, take), react), Act(w, Commit));
    u := Apply(Apply(Apply(t, take), react), Act(w, Commit));
  }

  /** A deadline whose root can not be marshaled executes its commands anew at every
      attempt, as often as it is tried, and is still due. */
  lemma {:induction false} FailedDeliveryRepeats(s: State, t: State, w: WorkerId, d: DeadlineId, c: CommandId, n: nat)
    returns (u: State)
    requires Reaches(s, t) && Due(t, w, d) && forall x :: x in t.db.queue.commands ==> x < c
    ensures Reaches(s, u) && Due(u, w, d) && Repeated(t.db, u.db, d, c, n)
    decreases n
  {
    if n == 0 {
      u := t;
      assert Ids(c, 0) == {};
    } else {
      var v := FailedDeliveryRepeats(s, t, w, d, c, n - 1);
      var next := c + n - 1;
      u := LeakyAttempt(s, v, w, d, next);
      RepeatedOnce(t.db, v.db, u.db, d, c, n - 1, next);
    }
  }

  /** Such a deadline can come about. */
  lemma {:induction false} DeadlineComesDue() returns (s: State, t: State)
    ensures Init(s) && Reaches(s, t) && Due(t, 0, 1) && t.db.queue == Queue({}, map[])
  {
    s := State(Db(map[], map[], Queue({}, map[])), map[], map[]);
    assert Run(s, []) && StateAfter(s, []) == s;
    var begin, take := Begin(0), Act(0, TakeEvent(7));
    var react := Act(0, React(Handles(Scope([], [1], false, false, None))));
    ReachesNext(s, s, begin);
    var began := Apply(s, begin);
    ReachesNext(s, began, take);
    var taken := Apply(began, take);
    ReachesNext(s, taken, react);
    ReachesNext(s, Apply(taken, react), Act(0, Commit));
    t := Apply(Apply(taken, react), Act(0, Commit));
  }

  // ---- Locks -----------------------------------------------------------------------------

  predicate Needs(tx: Tx, i: InstanceId) {
    tx.Open? && tx.instance == i
  }

  ghost predicate AllNeeded(s: State) {
    forall i :: i in s.locks ==> s.locks[i] in s.txs && Needs(s.txs[s.locks[i]], i)
  }

  lemma {:induction false} StepNeeded(s: State, step: Step)
    requires AllNeeded(s) && Enabled(s, step)
    ensures AllNeeded(Apply(s, step))
  {
    var t := Apply(s, step);
    forall i | i in t.locks ensures t.locks[i] in t.txs && Needs(t.txs[t.locks[i]], i) {
      assert i in s.locks ==> s.locks[i] in s.txs && Needs(s.txs[s.locks[i]], i);
    }
  }

  lemma {:induction false} RunNeeded(s: State, steps: seq<Step>)
    requires AllNeeded(s) && Run(s, steps)
    ensures AllNeeded(StateAfter(s, steps))
  {
    if steps != [] {
      RunNeeded(s, steps[..|steps| - 1]);
      StepNeeded(StateAfter(s, steps[..|steps| - 1]), steps[|steps| - 1]);
    }
  }

  /** An instance is locked exactly while a transaction is open for it, and by that one
      alone. */
  lemma {:induction false} LockedWhileOpen(s: State, steps: seq<Step>, i: InstanceId, w: WorkerId)
    requires Init(s) && Run(s, steps)
    ensures var t := StateAfter(s, steps);
      i in t.locks && t.locks[i] == w <==> w in t.txs && Needs(t.txs[w], i)
  {
    RunKeeps(s, steps);
    RunNeeded(s, steps);
    var t := StateAfter(s, steps);
    if w in t.txs && Needs(t.txs[w], i) {
      assert TxOk(t, w, t.txs[w]);
    }
  }
}
