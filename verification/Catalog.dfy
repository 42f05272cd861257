/** The catalog's index of streams and feeds, as it stands whenever its mutex is
    free (internal/eventstream/catalog.go). */
module Catalogs {
  import opened Stream

  type FeedId = nat

  /** catalogStream */
  datatype Listing = Listing(available: set<FeedId>, current: Option<FeedId>)

  class Catalog {
    var streams: map<Uuid, Listing>
    var streamIds: set<Uuid>          // the published set
    var streamOf: map<FeedId, Uuid>   // every feed ever added
    var closed: set<FeedId>

    /** The feeds of a stream that have been added and not removed. */
    ghost function OpenFeeds(id: Uuid): set<FeedId>
      reads this
    {
      set f | f in streamOf && streamOf[f] == id && f !in closed
    }

    /** The listing is exactly the open feeds; the current feed is one of them; a
        stream is published exactly while it has one. */
    ghost predicate Valid()
      reads this
    {
      && closed <= streamOf.Keys
      && (forall id :: id in streams ==>
            && streams[id].available == OpenFeeds(id) != {}
            && streams[id].current.Some? && streams[id].current.value in streams[id].available)
      && (forall f :: f in streamOf && f !in closed ==> streamOf[f] in streams)
      && streamIds == streams.Keys
    }

    constructor ()
      ensures Valid() && streams == map[] && streamIds == {} && streamOf == map[] && closed == {}
    {
      streams, streamIds, streamOf, closed := map[], {}, map[], {};
    }

    /** publish: add or remove one ID, unless that changes nothing. */
    method Publish(id: Uuid, present: bool)
      modifies this`streamIds
      ensures streamIds == if present then old(streamIds) + {id} else old(streamIds) - {id}
    {
      if (id in streamIds) == present {
        return;
      }
      if present {
        streamIds := streamIds + {id};
      } else {
        streamIds := streamIds - {id};
      }
    }

    method Add(id: Uuid, f: FeedId)
      requires Valid()
      requires f !in streamOf  // a newly allocated feed
      modifies this
      ensures Valid()
      ensures closed == old(closed) && streamOf == old(streamOf)[f := id]
      ensures OpenFeeds(id) == old(OpenFeeds(id)) + {f}
      ensures forall other :: other != id ==>
        && OpenFeeds(other) == old(OpenFeeds(other))
        && (other in streams <==> other in old(streams))
        && (other in streams ==> streams[other] == old(streams)[other])
      ensures id in streamIds
      ensures streams[id].current == if id in old(streams) then old(streams)[id].current else Some(f)
    {
      ghost var before := OpenFeeds(id);
      var cs := if id in streams then streams[id] else Listing({}, None);
      assert cs.available == before;
      cs := cs.(available := cs.available + {f});
      assert |cs.available| == |before| + 1;
      if |cs.available| == 1 {
        cs := cs.(current := Some(f));
        Publish(id, true);
      }
      streams := streams[id := cs];
      streamOf := streamOf[f := id];
      assert OpenFeeds(id) == before + {f};
      assert forall other :: other != id ==> OpenFeeds(other) == old(OpenFeeds(other));
    }

    method Remove(f: FeedId)
      requires Valid()
      requires f in streamOf && f !in closed
      modifies this
      ensures Valid()
      ensures streamOf == old(streamOf) && closed == old(closed) + {f}
      ensures forall id :: OpenFeeds(id) == old(OpenFeeds(id)) - {f}
      ensures var id := streamOf[f];
        && (forall other :: other != id ==>
              && (other in streams <==> other in old(streams))
              && (other in streams ==> streams[other] == old(streams)[other]))
        // Consumers stay where they are unless this feed was serving them.
        && (old(streams)[id].current != Some(f) ==> id in streams && streams[id].current == old(streams)[id].current)
        && (id in streamIds <==> OpenFeeds(id) != {})
    {
      var id := streamOf[f];
      ghost var before := OpenFeeds(id);
      var cs := streams[id];
      cs := cs.(available := cs.available - {f});
      if cs.current == Some(f) {
        if cs.available == {} {
          streams := streams - {id};
          Publish(id, false);
        } else {
          var next :| next in cs.available;
          streams := streams[id := cs.(current := Some(next))];
        }
      } else {
        streams := streams[id := cs];
      }
      closed := closed + {f};
      assert OpenFeeds(id) == before - {f};
      assert forall other :: other != id ==> OpenFeeds(other) == old(OpenFeeds(other));
    }

    /** Catalog.Watch's deferred clean-up: every feed of its source leaves. */
    method RemoveAll(feeds: set<FeedId>)
      requires Valid()
      requires feeds <= streamOf.Keys && feeds !! closed
      modifies this
      ensures Valid()
      ensures streamOf == old(streamOf) && closed == old(closed) + feeds
      ensures forall id :: OpenFeeds(id) == old(OpenFeeds(id)) - feeds
      ensures forall id :: id in streams ==> streams[id].available !! feeds
      ensures forall id :: id in streamIds <==> OpenFeeds(id) != {}
    {
      var left := feeds;
      while left != {}
        invariant Valid() && left <= feeds
        invariant streamOf == old(streamOf) && closed == old(closed) + (feeds - left)
        decreases left
      {
        var f :| f in left;
        Remove(f);
        left := left - {f};
      }
      PublishedHaveFeeds();
    }

    /** A stream is published exactly while it has at least one open feed. */
    lemma {:induction false} PublishedHaveFeeds()
      requires Valid()
      ensures forall id :: id in streamIds <==> OpenFeeds(id) != {}
    {
    }
  }
}
