/** The bounded cache of a stream's most recent events
    (internal/eventstream/internal/cache). */
module EventCache {
  import opened Stream

  /** The immutable snapshot that a cache publishes. */
  datatype CacheSegment = CacheSegment(begin: nat, end: nat, events: seq<Envelope>)

  datatype Relation = Before | Inside | After

  function RelationOf(s: CacheSegment, cp: nat): Relation {
    if cp < s.begin then Before else if cp >= s.end then After else Inside
  }

  /** Everything appended since the last reset, without any bound: what a cache
      of unlimited capacity would hold. */
  datatype History = History(origin: nat, end: nat, events: seq<Envelope>)

  ghost predicate ValidHistory(h: History) {
    h.origin <= h.end && Sorted(h.events) && Within(h.events, h.origin, h.end)
  }

  datatype Op = Reset(begin: nat) | Append(end: nat, envelopes: seq<Envelope>)

  /** The caller's duty: an appended range continues the stream, in offset order. */
  ghost predicate Legal(h: History, op: Op) {
    match op
    case Reset(_) => true
    case Append(end, envelopes) => h.end <= end && Sorted(envelopes) && Within(envelopes, h.end, end)
  }

  function Record(h: History, op: Op): History {
    match op
    case Reset(begin) => History(begin, begin, [])
    case Append(end, envelopes) => History(h.origin, end, h.events + envelopes)
  }

  /** The reference definition of a bounded cache: the last `capacity` events of
      the history, beginning just after the newest event left out. */
  function Recent(capacity: nat, h: History): CacheSegment {
    var evicted := |h.events| - capacity;
    if evicted <= 0 then
      CacheSegment(h.origin, h.end, h.events)
    else
      CacheSegment(h.events[evicted - 1].offset + 1, h.end, h.events[evicted..])
  }

  /** Cache.Append's three ways of making room. */
  function Appended(capacity: nat, prev: CacheSegment, end: nat, envelopes: seq<Envelope>): CacheSegment
    requires 0 < capacity
  {
    if envelopes == [] then
      CacheSegment(prev.begin, end, prev.events)
    else if |envelopes| - capacity > 0 then
      var evict := |envelopes| - capacity;
      CacheSegment(envelopes[evict - 1].offset + 1, end, envelopes[evict..])
    else if |prev.events| + |envelopes| - capacity > 0 then
      var evict := |prev.events| + |envelopes| - capacity;
      CacheSegment(prev.events[evict - 1].offset + 1, end, prev.events[evict..] + envelopes)
    else
      CacheSegment(prev.begin, end, prev.events + envelopes)
  }

  function Step(capacity: nat, s: CacheSegment, op: Op): CacheSegment
    requires 0 < capacity
  {
    match op
    case Reset(begin) => CacheSegment(begin, begin, [])
    case Append(end, envelopes) => Appended(capacity, s, end, envelopes)
  }

  /** Nothing new: the events held are those of the history, unchanged. */
  lemma {:induction false} NothingNew(capacity: nat, h: History, end: nat)
    requires 0 < capacity
    ensures Appended(capacity, Recent(capacity, h), end, []) == Recent(capacity, Record(h, Append(end, [])))
  {
    assert h.events + [] == h.events;
  }

  /** The new events alone exceed the capacity. */
  lemma {:induction false} OnlyNewKept(capacity: nat, h: History, end: nat, more: seq<Envelope>)
    requires 0 < capacity < |more|
    ensures Appended(capacity, Recent(capacity, h), end, more) == Recent(capacity, Record(h, Append(end, more)))
  {
    var all := h.events + more;
    assert all[|all| - capacity..] == more[|more| - capacity..];
  }

  /** The oldest of the events held make room for the new ones. */
  lemma {:induction false} SomeOldKept(capacity: nat, h: History, end: nat, more: seq<Envelope>)
    requires 0 < |more| <= capacity < |Recent(capacity, h).events| + |more|
    ensures Appended(capacity, Recent(capacity, h), end, more) == Recent(capacity, Record(h, Append(end, more)))
  {
    var kept, all := Recent(capacity, h).events, h.events + more;
    assert all[|all| - capacity..] == kept[|kept| + |more| - capacity..] + more;
  }

  /** There is room for all of them. */
  lemma {:induction false} AllKept(capacity: nat, h: History, end: nat, more: seq<Envelope>)
    requires 0 < |more| && |Recent(capacity, h).events| + |more| <= capacity
    ensures Appended(capacity, Recent(capacity, h), end, more) == Recent(capacity, Record(h, Append(end, more)))
  {
  }

  /** One operation on the cache is the same operation on the unbounded history,
      seen through `Recent`. */
  lemma {:induction false} StepIsRecent(capacity: nat, h: History, op: Op)
    requires 0 < capacity
    ensures Step(capacity, Recent(capacity, h), op) == Recent(capacity, Record(h, op))
  {
    if op.Append? {
      if op.envelopes == [] {
        NothingNew(capacity, h, op.end);
      } else if |op.envelopes| > capacity {
        OnlyNewKept(capacity, h, op.end, op.envelopes);
      } else if |Recent(capacity, h).events| + |op.envelopes| > capacity {
        SomeOldKept(capacity, h, op.end, op.envelopes);
      } else {
        AllKept(capacity, h, op.end, op.envelopes);
      }
    }
  }

  /** The bounded cache answers every checkpoint it covers exactly as the
      unbounded history would. */
  lemma {:induction false} RecentReads(capacity: nat, h: History, types: Types, cp: nat)
    requires 0 < capacity && ValidHistory(h)
    requires Recent(capacity, h).begin <= cp
    ensures Slice(Recent(capacity, h).events, types, cp, h.end) == Slice(h.events, types, cp, h.end)
  {
    var evicted := |h.events| - capacity;
    if evicted > 0 {
      assert h.events == h.events[..evicted] + h.events[evicted..];
      SliceConcat(h.events[..evicted], h.events[evicted..], types, cp, h.end);
      SliceNone(h.events[..evicted], types, cp, h.end);
    }
  }

  /** As many of the newest events as there is room for, and a range that begins no
      later than the first event left out makes necessary. */
  ghost predicate HoldsNewest(capacity: nat, h: History, s: CacheSegment) {
    && |s.events| <= |h.events| && h.events[|h.events| - |s.events|..] == s.events
    && if |h.events| <= capacity then |s.events| == |h.events| && s.begin == h.origin
       else |s.events| == capacity && s.begin == h.events[|h.events| - capacity - 1].offset + 1
  }

  lemma {:induction false} RecentIsValid(capacity: nat, h: History)
    requires 0 < capacity && ValidHistory(h)
    ensures var s := Recent(capacity, h);
      && HoldsNewest(capacity, h, s)
      && h.origin <= s.begin <= s.end == h.end
      && Sorted(s.events) && Within(s.events, s.begin, s.end)
  {
  }

  // ---- Runs ----------------------------------------------------------------

  ghost function RunHistory(begin: nat, ops: seq<Op>): History {
    if ops == [] then History(begin, begin, []) else Record(RunHistory(begin, ops[..|ops| - 1]), ops[|ops| - 1])
  }

  ghost function RunCache(capacity: nat, begin: nat, ops: seq<Op>): CacheSegment
    requires 0 < capacity
  {
    if ops == [] then CacheSegment(begin, begin, [])
    else Step(capacity, RunCache(capacity, begin, ops[..|ops| - 1]), ops[|ops| - 1])
  }

  ghost predicate LegalRun(begin: nat, ops: seq<Op>) {
    ops == [] ||
    (LegalRun(begin, ops[..|ops| - 1]) && Legal(RunHistory(begin, ops[..|ops| - 1]), ops[|ops| - 1]))
  }

  lemma {:induction false} RunIsRecent(capacity: nat, begin: nat, ops: seq<Op>)
    requires 0 < capacity && LegalRun(begin, ops)
    ensures ValidHistory(RunHistory(begin, ops))
    ensures RunCache(capacity, begin, ops) == Recent(capacity, RunHistory(begin, ops))
  {
    if ops != [] {
      var init := ops[..|ops| - 1];
      RunIsRecent(capacity, begin, init);
      StepIsRecent(capacity, RunHistory(begin, init), ops[|ops| - 1]);
    }
  }

  /** From every checkpoint that it covers the segment reads like the history. */
  ghost predicate Answers(s: CacheSegment, h: History) {
    forall types, cp :: s.begin <= cp ==> Slice(s.events, types, cp, s.end) == Slice(h.events, types, cp, h.end)
  }

  lemma {:induction false} RecentAnswers(capacity: nat, h: History)
    requires 0 < capacity && ValidHistory(h)
    ensures Answers(Recent(capacity, h), h)
  {
    var s := Recent(capacity, h);
    forall types, cp | s.begin <= cp ensures Slice(s.events, types, cp, s.end) == Slice(h.events, types, cp, h.end) {
      RecentReads(capacity, h, types, cp);
    }
  }

  /** After any legal sequence of resets and appends the cache is exactly the
      last `capacity` events of the history since the last reset, is sorted and
      in range, and reads like that history from every checkpoint it covers. */
  lemma {:induction false} CacheRefinesHistory(capacity: nat, begin: nat, ops: seq<Op>)
    requires 0 < capacity && LegalRun(begin, ops)
    ensures var h, s := RunHistory(begin, ops), RunCache(capacity, begin, ops);
      && ValidHistory(h)
      && s == Recent(capacity, h) && HoldsNewest(capacity, h, s)
      && |s.events| <= capacity && s.begin <= s.end == h.end
      && Sorted(s.events) && Within(s.events, s.begin, s.end)
      && Answers(s, h)
  {
    RunIsRecent(capacity, begin, ops);
    RecentIsValid(capacity, RunHistory(begin, ops));
    RecentAnswers(capacity, RunHistory(begin, ops));
  }

  /** An append to a segment that is faithful to a log leaves it faithful. */
  lemma {:induction false} AppendedIsSlice(capacity: nat, prev: CacheSegment, events: seq<Envelope>, types: Types,
                                           end: nat)
    requires 0 < capacity && |prev.events| <= capacity
    requires Sorted(events)
    requires prev.begin <= prev.end <= end
    requires prev.events == Slice(events, types, prev.begin, prev.end)
    ensures var next := Appended(capacity, prev, end, Slice(events, types, prev.end, end));
      && next.begin <= next.end == end
      && |next.events| <= capacity
      && next.events == Slice(events, types, next.begin, end)
  {
    var envelopes := Slice(events, types, prev.end, end);
    var h := History(prev.begin, prev.end, prev.events);
    StepIsRecent(capacity, h, Append(end, envelopes));
    SliceSplit(events, types, prev.begin, prev.end, end);
    var all := prev.events + envelopes;
    if |all| > capacity {
      SliceDrop(events, types, prev.begin, end, |all| - capacity);
    }
  }

  // ---- The cache object ----------------------------------------------------

  /** sort.Search for the first event at or after the checkpoint. */
  method FirstAtOrAfter(events: seq<Envelope>, cp: nat) returns (first: nat)
    requires Sorted(events)
    ensures first <= |events|
    ensures forall i :: 0 <= i < first ==> events[i].offset < cp
    ensures forall i :: first <= i < |events| ==> cp <= events[i].offset
  {
    first := 0;
    var high := |events|;
    while first < high
      invariant 0 <= first <= high <= |events|
      invariant forall i :: 0 <= i < first ==> events[i].offset < cp
      invariant forall i :: high <= i < |events| ==> cp <= events[i].offset
    {
      var mid := (first + high) / 2;
      if events[mid].offset >= cp {
        high := mid;
      } else {
        first := mid + 1;
      }
    }
  }

  /** Segment.Read: relate the checkpoint to the segment, find the first event at
      or after it by binary search, and keep the wanted types. */
  method ReadSegment(s: CacheSegment, cp: nat, types: Types) returns (envelopes: seq<Envelope>, rel: Relation)
    requires Sorted(s.events) && Within(s.events, s.begin, s.end)
    ensures rel == RelationOf(s, cp)
    ensures envelopes == if s.begin <= cp < s.end then Slice(s.events, types, cp, s.end) else []
  {
    if cp < s.begin {
      return [], Before;
    }
    if cp >= s.end {
      return [], After;
    }

    var first := FirstAtOrAfter(s.events, cp);
    SliceNone(s.events[..first], types, cp, s.end);
    envelopes := [];
    for i := first to |s.events|
      invariant envelopes == Slice(s.events[..i], types, cp, s.end)
    {
      assert s.events[..i + 1][..i] == s.events[..i];
      if Wants(types, s.events[i].typeId) {
        envelopes := envelopes + [s.events[i]];
      }
    }
    assert s.events[..|s.events|] == s.events;
    rel := Inside;
  }

  /** Append's new snapshot. */
  method MakeRoom(capacity: nat, prev: CacheSegment, end: nat, envelopes: seq<Envelope>) returns (next: CacheSegment)
    requires 0 < capacity
    ensures next == Appended(capacity, prev, end, envelopes)
  {
    next := CacheSegment(prev.begin, end, []);
    var kept := envelopes;
    if |envelopes| == 0 {
      next := next.(events := prev.events);
    } else if |envelopes| - capacity > 0 {
      var evict := |envelopes| - capacity;
      next := next.(begin := envelopes[evict - 1].offset + 1);
      kept := envelopes[evict..];
    } else if |prev.events| + |envelopes| - capacity > 0 {
      var evict := |prev.events| + |envelopes| - capacity;
      next := next.(begin := prev.events[evict - 1].offset + 1, events := prev.events[evict..]);
    } else {
      next := next.(events := prev.events);
    }
    next := next.(events := next.events + kept);
  }

  class Cache {
    const capacity: nat
    var segment: CacheSegment
    ghost var history: History

    ghost predicate Valid()
      reads this
    {
      0 < capacity && ValidHistory(history) && segment == Recent(capacity, history)
    }

    constructor (capacity: nat, begin: nat)
      requires 0 < capacity
      ensures Valid() && this.capacity == capacity
      ensures segment == CacheSegment(begin, begin, []) && history == History(begin, begin, [])
    {
      this.capacity := capacity;
      segment := CacheSegment(begin, begin, []);
      history := History(begin, begin, []);
    }

    method Clear(begin: nat)
      requires Valid()
      modifies this
      ensures Valid()
      ensures segment == CacheSegment(begin, begin, []) && history == History(begin, begin, [])
    {
      segment := CacheSegment(begin, begin, []);
      history := History(begin, begin, []);
    }

    method Extend(begin: nat, end: nat, envelopes: seq<Envelope>)
      requires Valid()
      requires begin == segment.end  // the source panics otherwise
      requires begin <= end && Sorted(envelopes) && Within(envelopes, begin, end)
      modifies this
      ensures Valid()
      ensures history == old(history).(end := end, events := old(history).events + envelopes)
      ensures segment.end == end && HoldsNewest(capacity, history, segment)
    {
      RecentIsValid(capacity, Record(history, Append(end, envelopes)));
      StepIsRecent(capacity, history, Append(end, envelopes));
      segment := MakeRoom(capacity, segment, end, envelopes);
      history := Record(history, Append(end, envelopes));
    }

    method Read(cp: nat, types: Types) returns (envelopes: seq<Envelope>, rel: Relation)
      requires Valid()
      ensures if cp < segment.begin then rel == Before else if segment.end <= cp then rel == After else rel == Inside
      ensures segment.begin <= cp < segment.end ==> envelopes == Slice(history.events, types, cp, history.end)
      ensures !(segment.begin <= cp < segment.end) ==> envelopes == []
    {
      RecentIsValid(capacity, history);
      envelopes, rel := ReadSegment(segment, cp, types);
      if rel == Inside {
        RecentReads(capacity, history, types, cp);
      }
    }
  }
}
