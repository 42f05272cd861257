/** The signal bus and the stream followers that it wakes: delivery is lossy, and yet
    no follower sleeps past an append
    (internal/signal/bus.go, with deliverStream of internal/eventstream/source/local.go). */
module SignalBus {
  import opened Stream

  type SubscriberId = nat

  /** A topic's levels, from the top. */
  type Topic = seq<nat>

  /** A subscriber's channel holds `queued` signals: the part of each one's topic that is
      beneath its own. */
  datatype Subscriber = Subscriber(topic: Topic, capacity: nat, queued: seq<Topic>)

  type Subscribers = map<SubscriberId, Subscriber>

  predicate ChannelsOk(subs: Subscribers) {
    forall id :: id in subs ==> |subs[id].queued| <= subs[id].capacity && 0 < subs[id].capacity
  }

  /** subtopicOf, level by level. */
  function SubtopicOf<T(==)>(parent: seq<T>, topic: seq<T>): Option<seq<T>> {
    if parent <= topic then Some(topic[|parent|..]) else None
  }

  // ---- Topics as strings ---------------------------------------------------------

  /** A topic's levels, separated by dots. */
  function Dotted(levels: seq<string>): string {
    if levels == [] then "" else if |levels| == 1 then levels[0] else levels[0] + "." + Dotted(levels[1..])
  }

  /** Each level followed by a dot. */
  function Terminated(levels: seq<string>): string {
    if levels == [] then "" else levels[0] + "." + Terminated(levels[1..])
  }

  predicate NoDots(levels: seq<string>) {
    forall k :: 0 <= k < |levels| ==> '.' !in levels[k]
  }

  /** subtopicOf, as the string function that it is. */
  function CutTopic(parent: string, topic: string): Option<string> {
    if topic == parent then Some("")
    else if parent + "." <= topic then Some(topic[|parent + "."|..])
    else None
  }

  lemma {:induction false} DottedTerminated(levels: seq<string>)
    requires levels != []
    ensures Dotted(levels) + "." == Terminated(levels)
    decreases |levels|
  {
    if |levels| == 1 {
      assert levels[0] + "." + "" == levels[0] + ".";
    } else {
      DottedTerminated(levels[1..]);
      assert Dotted(levels) + "." == levels[0] + "." + (Dotted(levels[1..]) + ".");
    }
  }

  /** Two texts that go on after a word without dots and a dot: the words are the same. */
  lemma {:induction false} SameFirstLevel(a: string, x: string, b: string, y: string)
    requires '.' !in a && '.' !in b && a + "." + x <= b + "." + y
    ensures a == b && x <= y
  {
    var l, r := a + "." + x, b + "." + y;
    assert forall k :: 0 <= k < |l| ==> l[k] == r[k];
    assert l[|a|] == '.' && r[|b|] == '.';
    assert |a| == |b|;
    assert a == l[..|a|] && b == r[..|a|];
    assert x == l[|a| + 1..] && y == r[|a| + 1..];
  }

  lemma {:induction false} TerminatedConcat(p: seq<string>, q: seq<string>)
    ensures Terminated(p + q) == Terminated(p) + Terminated(q)
    decreases |p|
  {
    if p == [] {
      assert p + q == q;
    } else {
      TerminatedConcat(p[1..], q);
      assert (p + q)[1..] == p[1..] + q;
    }
  }

  lemma {:induction false} PrefixByLevel(p: seq<string>, t: seq<string>)
    requires NoDots(p) && NoDots(t) && Terminated(p) <= Terminated(t)
    ensures p <= t
    decreases |p|
  {
    if p != [] {
      assert t != [];
      SameFirstLevel(p[0], Terminated(p[1..]), t[0], Terminated(t[1..]));
      PrefixByLevel(p[1..], t[1..]);
      assert p == [p[0]] + p[1..] && t == [t[0]] + t[1..];
    }
  }

  lemma {:induction false} CutBeneath(p: seq<string>, rest: seq<string>)
    requires p != []
    ensures CutTopic(Dotted(p), Dotted(p + rest)) == Some(Dotted(rest))
  {
    if rest == [] {
      assert p + rest == p;
    } else {
      TerminatedConcat(p, rest);
      DottedTerminated(p);
      DottedTerminated(rest);
      DottedTerminated(p + rest);
      var topic := Dotted(p) + "." + Dotted(rest);
      assert Dotted(p + rest) + "." == topic + ".";
      assert Dotted(p + rest) == (topic + ".")[..|topic|] == topic;
    }
  }

  /** On topics made of levels without dots, the string function is the one on levels: "a.b"
      is above "a.b" and "a.b.c", but not above "a.bc", and what is beneath it is "c". */
  lemma {:induction false} CutByLevel(p: seq<string>, t: seq<string>)
    requires p != [] && t != [] && NoDots(p) && NoDots(t)
    ensures CutTopic(Dotted(p), Dotted(t)) ==
      match SubtopicOf(p, t) case None => None case Some(rest) => Some(Dotted(rest))
  {
    DottedTerminated(p);
    DottedTerminated(t);
    var parent, topic := Dotted(p), Dotted(t);
    assert topic == (topic + ".")[..|topic|];
    if parent + "." <= topic + "." {
      PrefixByLevel(p, t);
    }
    if p <= t {
      CutBeneath(p, t[|p|..]);
      assert t == p + t[|p|..];
    }
  }

  /** A send that drops the signal if the channel is full. */
  function Offered(sub: Subscriber, subtopic: Topic): Subscriber {
    if |sub.queued| < sub.capacity then sub.(queued := sub.queued + [subtopic]) else sub
  }

  /** What a signal does to a subscriber: one on a topic, or, if there is none, as though
      there were one on the subscriber's own. */
  function Signaled(sub: Subscriber, topic: Option<Topic>): Subscriber {
    var subtopic := if topic.None? then Some([]) else SubtopicOf(sub.topic, topic.value);
    if subtopic.Some? then Offered(sub, subtopic.value) else sub
  }

  /** What a signal does to the subscribers in `ids`. */
  function AllSignaled(subs: Subscribers, ids: set<SubscriberId>, topic: Option<Topic>): Subscribers {
    map id | id in subs :: if id in ids then Signaled(subs[id], topic) else subs[id]
  }

  /** One subscriber's side of a signal: if it watches the topic or one above it, and its
      channel has room, the channel gains the part of the topic that is beneath its own;
      otherwise nothing changes. */
  predicate Gains(sub: Subscriber, after: Subscriber, topic: Option<Topic>) {
    if (topic.None? || sub.topic <= topic.value) && |sub.queued| < sub.capacity then
      && after == sub.(queued := after.queued)
      && |after.queued| == |sub.queued| + 1 && sub.queued <= after.queued
      && sub.topic + after.queued[|sub.queued|] == if topic.None? then sub.topic else topic.value
    else
      after == sub
  }

  ghost predicate AllGain(subs: Subscribers, after: Subscribers, topic: Option<Topic>) {
    after.Keys == subs.Keys && forall id :: id in subs ==> Gains(subs[id], after[id], topic)
  }

  /** Each subscriber concerned gains the signal, if there is room for it. Whatever is
      dropped because a channel is full, every subscriber of the topic or of one above it
      has a signal afterwards, and no other gains one. */
  lemma {:induction false} SignaledHaveSignal(subs: Subscribers, topic: Option<Topic>)
    requires ChannelsOk(subs)
    ensures var after := AllSignaled(subs, subs.Keys, topic);
      && ChannelsOk(after) && AllGain(subs, after, topic)
      && forall id :: id in subs ==>
           (after[id].queued != [] <==> subs[id].queued != [] || topic.None? || subs[id].topic <= topic.value)
  {
    var after := AllSignaled(subs, subs.Keys, topic);
    forall id | id in subs
      ensures Gains(subs[id], after[id], topic)
      ensures after[id].queued != [] <==> subs[id].queued != [] || topic.None? || subs[id].topic <= topic.value
    {
      assert after[id] == Signaled(subs[id], topic);
    }
  }

  /** The loop of wake and of dispatch over the subscribers. */
  method SignalAll(subs: Subscribers, topic: Option<Topic>) returns (after: Subscribers)
    ensures after == AllSignaled(subs, subs.Keys, topic)
  {
    after := subs;
    var left := subs.Keys;
    while left != {}
      invariant left <= subs.Keys && after == AllSignaled(subs, subs.Keys - left, topic)
      decreases left
    {
      var id :| id in left;
      var subtopic := if topic.None? then Some([]) else SubtopicOf(after[id].topic, topic.value);
      if subtopic.Some? {
        after := after[id := Offered(after[id], subtopic.value)];
      }
      left := left - {id};
    }
  }

  class Bus {
    var subscribers: Subscribers      // the registered ones, whose channels are open
    var closed: Subscribers           // the channels that were closed, with what is left in them

    ghost predicate Valid()
      reads this
    {
      ChannelsOk(subscribers) && subscribers.Keys !! closed.Keys
    }

    constructor ()
      ensures Valid() && subscribers == map[] && closed == map[]
    {
      subscribers, closed := map[], map[];
    }

    /** Watch, which panics if the capacity is not positive: the channel begins with a signal. */
    method Watch(id: SubscriberId, topic: Topic, capacity: nat)
      requires Valid() && id !in subscribers && id !in closed && 0 < capacity
      modifies this`subscribers
      ensures Valid() && subscribers == old(subscribers)[id := Subscriber(topic, capacity, [[]])]
    {
      subscribers := subscribers[id := Subscriber(topic, capacity, [[]])];
    }

    /** The function that stops a watch, which has an effect only once: the subscriber is
        removed, and its channel closed, so that nothing more is sent to it. */
    method Stop(id: SubscriberId)
      requires Valid()
      modifies this
      ensures Valid() && subscribers == old(subscribers) - {id}
      ensures closed == if id in old(subscribers) then old(closed)[id := old(subscribers)[id]] else old(closed)
    {
      if id in subscribers {
        closed := closed[id := subscribers[id]];
        subscribers := subscribers - {id};
      }
    }

    /** A receive from a channel: what was sent comes first, and then, if it is closed, its
        end. Otherwise it blocks. */
    method Receive(id: SubscriberId) returns (subtopic: Option<Topic>, ended: bool)
      requires Valid() && (id in subscribers || id in closed)
      modifies this
      ensures Valid()
      ensures var sub := if id in old(subscribers) then old(subscribers)[id] else old(closed)[id];
        && subtopic == (if sub.queued == [] then None else Some(sub.queued[0]))
        && (ended <==> sub.queued == [] && id in old(closed))
        && var rest := if sub.queued == [] then sub else sub.(queued := sub.queued[1..]);
           && subscribers == (if id in old(subscribers) then old(subscribers)[id := rest] else old(subscribers))
           && closed == if id in old(closed) then old(closed)[id := rest] else old(closed)
    {
      var sub := if id in subscribers then subscribers[id] else closed[id];
      subtopic, ended := None, false;
      if sub.queued != [] {
        subtopic := Some(sub.queued[0]);
        sub := sub.(queued := sub.queued[1..]);
      } else {
        ended := id in closed;
      }
      if id in subscribers {
        subscribers := subscribers[id := sub];
      } else {
        closed := closed[id := sub];
      }
    }

    /** wake: as though a signal had been received on each subscriber's own topic. */
    method Wake()
      requires Valid()
      modifies this`subscribers
      ensures Valid() && AllGain(old(subscribers), subscribers, None)
    {
      SignaledHaveSignal(subscribers, None);
      subscribers := SignalAll(subscribers, None);
    }

    /** dispatch. */
    method Dispatch(topic: Topic)
      requires Valid()
      modifies this`subscribers
      ensures Valid() && AllGain(old(subscribers), subscribers, Some(topic))
    {
      SignaledHaveSignal(subscribers, Some(topic));
      subscribers := SignalAll(subscribers, Some(topic));
    }
  }

  // ---- The bus, the database and the followers as one system ---------------------

  /** Down: no connection is listening. Listening: LISTEN is active, but the
      subscribers have not been woken yet. Up: they have. */
  datatype Link = Down | Listening | Up

  /** A call to deliverStream. It shares its id with its subscriber. */
  datatype Follower = Follower(stream: Uuid, begun: bool, next: nat, scanning: bool)

  /** The topics "eventstream.create.<id>" and "eventstream.append.<id>". */
  function CreateTopic(stream: Uuid): Topic { [0, 0, stream] }

  function AppendTopic(stream: Uuid): Topic { [0, 1, stream] }

  datatype State = State(
    ends: map<Uuid, nat>,              // each stream's committed end
    link: Link,
    inFlight: seq<Topic>,              // notifications for the listening connection
    subs: Subscribers,
    followers: map<SubscriberId, Follower>)

  datatype Step =
    | Create(stream: Uuid)
    | Commit(stream: Uuid, end: nat)                            // a transaction appends, and notifies
    | Disconnect
    | Listen
    | Wake
    | Dispatch
    | Join(id: SubscriberId, stream: Uuid, capacity: nat)       // Watch
    | Leave(id: SubscriberId)                                   // stop
    | Take(id: SubscriberId)                                    // the follower receives a signal
    | Open(id: SubscriberId)                                    // loadWatchOffset
    | Load(id: SubscriberId, end: nat, exhausted: bool)         // loadSegment

  /** The follower exists, and so does the stream that it follows. */
  ghost predicate Follows(s: State, id: SubscriberId) {
    id in s.followers && id in s.subs && s.followers[id].stream in s.ends
  }

  ghost predicate Enabled(s: State, step: Step) {
    match step
    case Create(stream) => stream !in s.ends
    case Commit(stream, end) => stream in s.ends && s.ends[stream] < end
    case Disconnect => true
    case Listen => s.link.Down?
    case Wake => s.link.Listening?
    case Dispatch => s.link.Up? && s.inFlight != []
    case Join(id, stream, capacity) => id !in s.subs && stream in s.ends && 0 < capacity
    case Leave(_) => true
    case Take(id) => Follows(s, id) && s.subs[id].queued != [] && !s.followers[id].scanning
    case Open(id) => Follows(s, id) && s.followers[id].scanning && !s.followers[id].begun
    case Load(id, end, exhausted) =>
      && Follows(s, id) && s.followers[id].scanning && s.followers[id].begun
      && s.followers[id].next <= end <= s.ends[s.followers[id].stream]
      && (if exhausted then end == s.ends[s.followers[id].stream] else s.followers[id].next < end)
  }

  /** A transaction's notification, which only a connection that listens receives. */
  ghost function Notified(s: State, topic: Topic): seq<Topic> {
    if s.link.Down? then s.inFlight else s.inFlight + [topic]
  }

  ghost function Apply(s: State, step: Step): State
    requires Enabled(s, step)
  {
    match step
    case Create(stream) => s.(ends := s.ends[stream := 0], inFlight := Notified(s, CreateTopic(stream)))
    case Commit(stream, end) => s.(ends := s.ends[stream := end], inFlight := Notified(s, AppendTopic(stream)))
    case Disconnect => s.(link := Down, inFlight := [])
    case Listen => s.(link := Listening)
    case Wake => s.(link := Up, subs := AllSignaled(s.subs, s.subs.Keys, None))
    case Dispatch => s.(inFlight := s.inFlight[1..], subs := AllSignaled(s.subs, s.subs.Keys, Some(s.inFlight[0])))
    case Join(id, stream, capacity) =>
      s.(subs := s.subs[id := Subscriber(AppendTopic(stream), capacity, [[]])],
         followers := s.followers[id := Follower(stream, false, 0, false)])
    case Leave(id) => s.(subs := s.subs - {id}, followers := s.followers - {id})
    case Take(id) =>
      s.(subs := s.subs[id := s.subs[id].(queued := s.subs[id].queued[1..])],
         followers := s.followers[id := s.followers[id].(scanning := true)])
    case Open(id) =>
      s.(followers := s.followers[id := s.followers[id].(begun := true, next := s.ends[s.followers[id].stream])])
    case Load(id, end, exhausted) =>
      s.(followers := s.followers[id := s.followers[id].(next := end, scanning := !exhausted)])
  }

  ghost predicate Init(s: State) {
    s.link.Down? && s.inFlight == [] && s.subs == map[] && s.followers == map[]
  }

  /** The follower has something to do. */
  ghost predicate Behind(s: State, id: SubscriberId)
    requires Follows(s, id)
  {
    !s.followers[id].begun || s.followers[id].next < s.ends[s.followers[id].stream]
  }

  /** Something is sure to set the follower going: it is scanning, its channel holds a
      signal, a notification for its stream is on its way, or the subscribers are yet
      to be woken. A follower that has not begun does not depend on the last two. */
  ghost predicate Roused(s: State, id: SubscriberId)
    requires Follows(s, id)
  {
    || s.followers[id].scanning
    || s.subs[id].queued != []
    || (s.followers[id].begun && (AppendTopic(s.followers[id].stream) in s.inFlight || !s.link.Up?))
  }

  ghost predicate FollowerOk(s: State, id: SubscriberId) {
    && Follows(s, id)
    && s.subs[id].topic == AppendTopic(s.followers[id].stream)
    && s.followers[id].next <= s.ends[s.followers[id].stream]
    && (Behind(s, id) ==> Roused(s, id))
  }

  ghost predicate Inv(s: State) {
    && ChannelsOk(s.subs) && s.followers.Keys == s.subs.Keys
    && (s.link.Down? ==> s.inFlight == [])
    && forall id :: id in s.followers ==> FollowerOk(s, id)
  }

  /** A dispatch takes a notification from the queue, but not without rousing the followers
      of its stream. */
  lemma {:induction false} DispatchRouses(s: State, id: SubscriberId)
    requires Inv(s) && Enabled(s, Dispatch) && id in s.followers
    ensures FollowerOk(Apply(s, Dispatch), id)
  {
    assert FollowerOk(s, id);
    SignaledHaveSignal(s.subs, Some(s.inFlight[0]));
    var topic := AppendTopic(s.followers[id].stream);
    if topic in s.inFlight && topic !in s.inFlight[1..] {
      assert s.inFlight == [s.inFlight[0]] + s.inFlight[1..];
      assert topic == s.inFlight[0];
    }
  }

  /** Every step that could put a follower to sleep or leave it behind rouses it. */
  lemma {:induction false} StepKeepsFollower(s: State, step: Step, id: SubscriberId)
    requires Inv(s) && Enabled(s, step) && id in Apply(s, step).followers
    ensures FollowerOk(Apply(s, step), id)
  {
    if id in s.followers {
      assert FollowerOk(s, id);
      if step.Wake? {
        SignaledHaveSignal(s.subs, None);
      } else if step.Dispatch? {
        DispatchRouses(s, id);
      }
    }
  }

  lemma {:induction false} StepKeeps(s: State, step: Step)
    requires Inv(s) && Enabled(s, step)
    ensures Inv(Apply(s, step))
  {
    if step.Wake? {
      SignaledHaveSignal(s.subs, None);
    } else if step.Dispatch? {
      SignaledHaveSignal(s.subs, Some(s.inFlight[0]));
    }
    forall id | id in Apply(s, step).followers ensures FollowerOk(Apply(s, step), id) {
      StepKeepsFollower(s, step, id);
    }
  }

  // ---- Runs --------------------------------------------------------------------------

  ghost predicate Run(s: State, steps: seq<Step>)
    decreases |steps|, 0
  {
    steps == [] || (Run(s, steps[..|steps| - 1]) && Enabled(StateAfter(s, steps[..|steps| - 1]), steps[|steps| - 1]))
  }

  ghost function StateAfter(s: State, steps: seq<Step>): State
    requires Run(s, steps)
    decreases |steps|, 1
  {
    if steps == [] then s else Apply(StateAfter(s, steps[..|steps| - 1]), steps[|steps| - 1])
  }

  lemma {:induction false} RunKeeps(s: State, steps: seq<Step>)
    requires Inv(s) && Run(s, steps)
    ensures Inv(StateAfter(s, steps))
  {
    if steps != [] {
      var init, last := steps[..|steps| - 1], steps[|steps| - 1];
      RunKeeps(s, init);
      StepKeeps(StateAfter(s, init), last);
    }
  }

  /** No wake-up is lost, whatever signals are dropped and however often the connection
      fails. */
  lemma {:induction false} NoLostWakeUp(s: State, steps: seq<Step>, id: SubscriberId)
    requires Init(s) && Run(s, steps) && id in StateAfter(s, steps).followers
    ensures var t := StateAfter(s, steps); FollowerOk(t, id)
  {
    RunKeeps(s, steps);
  }

  // ---- Catching up ----------------------------------------------------------------

  /** A step of the bus or of a follower, rather than of its surroundings. */
  predicate Internal(step: Step) {
    step.Dispatch? || step.Take? || step.Open? || step.Load?
  }

  /** The steps that bring follower `id` closer to the end of its stream. */
  predicate Serves(step: Step, id: SubscriberId) {
    step.Dispatch? || ((step.Take? || step.Open? || step.Load?) && step.id == id)
  }

  /** How many such steps the follower may still need. */
  ghost function Potential(s: State, id: SubscriberId): nat
    requires FollowerOk(s, id)
  {
    var f := s.followers[id];
    var end := s.ends[f.stream];
    var distance := if f.begun then end - f.next else end + 1;
    3 * |s.inFlight| + 2 * |s.subs[id].queued| + distance + if f.scanning then 1 else 0
  }

  lemma {:induction false} DispatchDescends(s: State, id: SubscriberId)
    requires Inv(s) && Enabled(s, Dispatch) && id in s.followers && FollowerOk(Apply(s, Dispatch), id)
    ensures Potential(Apply(s, Dispatch), id) < Potential(s, id)
  {
    assert FollowerOk(s, id);
    SignaledHaveSignal(s.subs, Some(s.inFlight[0]));
  }

  lemma {:induction false} FollowerDescends(s: State, step: Step, id: SubscriberId)
    requires Inv(s) && Enabled(s, step) && (step.Take? || step.Open? || step.Load?) && id in s.followers
    requires FollowerOk(Apply(s, step), id)
    ensures Potential(Apply(s, step), id) + (if Serves(step, id) then 1 else 0) <= Potential(s, id)
  {
    assert FollowerOk(s, id);
  }

  /** Internal steps neither start, stop nor commit anything, and each one that serves
      the follower uses up some of its potential. */
  lemma {:induction false} Descends(s: State, step: Step, id: SubscriberId)
    requires Inv(s) && Enabled(s, step) && Internal(step) && id in s.followers
    ensures var t := Apply(s, step);
      && Inv(t) && id in t.followers && t.link == s.link && t.ends == s.ends
      && t.followers[id].stream == s.followers[id].stream
      && Potential(t, id) + (if Serves(step, id) then 1 else 0) <= Potential(s, id)
      && (step == Open(id) ==> !Behind(t, id))
  {
    StepKeeps(s, step);
    if step.Dispatch? {
      DispatchDescends(s, id);
    } else {
      FollowerDescends(s, step, id);
    }
  }

  ghost function Served(steps: seq<Step>, id: SubscriberId): nat {
    if steps == [] then 0
    else Served(steps[..|steps| - 1], id) + (if Serves(steps[|steps| - 1], id) then 1 else 0)
  }

  lemma {:induction false} InternalRunBounded(s: State, steps: seq<Step>, id: SubscriberId)
    requires Inv(s) && Run(s, steps) && (forall k :: 0 <= k < |steps| ==> Internal(steps[k])) && id in s.followers
    ensures var t := StateAfter(s, steps);
      && Inv(t) && id in t.followers && t.link == s.link && t.ends == s.ends
      && t.followers[id].stream == s.followers[id].stream
      && Served(steps, id) + Potential(t, id) <= Potential(s, id)
  {
    if steps != [] {
      var init, last := steps[..|steps| - 1], steps[|steps| - 1];
      forall k | 0 <= k < |init| ensures Internal(init[k]) {
        assert init[k] == steps[k];
      }
      InternalRunBounded(s, init, id);
      Descends(StateAfter(s, init), last, id);
    }
  }

  /** Once the bus is up and nothing more is committed, a follower that has not reached
      the end of its stream always has a step that serves it, and only so many of them
      can happen: then it has reached the end. */
  lemma {:induction false} CatchesUp(s: State, steps: seq<Step>, id: SubscriberId)
    requires Inv(s) && s.link.Up? && Run(s, steps) && id in s.followers
    requires forall k :: 0 <= k < |steps| ==> Internal(steps[k])
    ensures Served(steps, id) <= Potential(s, id)
    ensures var t := StateAfter(s, steps);
      || (id in t.followers && t.followers[id].begun && t.followers[id].next == s.ends[s.followers[id].stream])
      || exists step :: Serves(step, id) && Enabled(t, step)
  {
    InternalRunBounded(s, steps, id);
    var t := StateAfter(s, steps);
    assert FollowerOk(t, id);
    if Behind(t, id) {
      var step :=
        if t.followers[id].scanning then
          if t.followers[id].begun then Load(id, t.ends[t.followers[id].stream], true) else Open(id)
        else if t.subs[id].queued != [] then Take(id)
        else Dispatch;
      assert Serves(step, id) && Enabled(t, step);
    }
  }
}
