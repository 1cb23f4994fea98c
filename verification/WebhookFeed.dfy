/** The persistent queue of events that the webhook actor reads from: events in ascending order of
    their identifiers, read from an offset and skipping expired ones. */
module WebhookFeed {

  const MAX_ID := 2000000000
  const MAX_QUEUE_EVENTS := 100000

  /** An event; extra is 0 for an update that needs no ordering with others. */
  datatype Event = Event(id: int, expiresAt: int, extra: int, headerFits: bool)

  ghost predicate Sorted(events: seq<Event>) {
    forall i, j | 0 <= i < j < |events| :: events[i].id < events[j].id
  }

  ghost predicate IdsWithin(events: seq<Event>, tail: int) {
    forall e | e in events :: 0 < e.id < tail
  }

  /** The first events from an offset that are not expired, at most limit of them. */
  function Taken(events: seq<Event>, offset: int, now: int, limit: nat): seq<Event> {
    if events == [] then []
    else if events[0].id < offset || events[0].expiresAt < now then Taken(events[1..], offset, now, limit)
    else if limit == 0 then []
    else [events[0]] + Taken(events[1..], offset, now, limit - 1)
  }

  /** What is left after that read: the expired events that it passed are removed. */
  function Kept(events: seq<Event>, offset: int, now: int, limit: nat): seq<Event> {
    if events == [] then []
    else if events[0].id < offset then [events[0]] + Kept(events[1..], offset, now, limit)
    else if events[0].expiresAt < now then Kept(events[1..], offset, now, limit)
    else if limit == 0 then events
    else [events[0]] + Kept(events[1..], offset, now, limit - 1)
  }

  function Removed(events: seq<Event>, ids: set<int>): seq<Event> {
    if events == [] then []
    else if events[0].id in ids then Removed(events[1..], ids)
    else [events[0]] + Removed(events[1..], ids)
  }

  datatype Feed = Feed(events: seq<Event>, tail: int)
  {
    ghost predicate Valid() {
      Sorted(events) && IdsWithin(events, tail) && 0 <= tail < MAX_ID
    }

    function Head(): int {
      if events == [] then tail else events[0].id
    }

    /** Reading from this offset is an error. */
    predicate Refuses(offset: int) {
      offset > tail + 10 || offset < Head() - MAX_QUEUE_EVENTS
    }

    function Push(e: Event): Feed {
      Feed(events + [e], e.id + 1)
    }

    function Remove(ids: set<int>): Feed {
      this.(events := Removed(events, ids))
    }
  }

  // --- properties ---

  lemma SortedTail(events: seq<Event>)
    requires Sorted(events) && events != []
    ensures Sorted(events[1..])
    ensures forall e | e in events[1..] :: e in events && events[0].id < e.id
    ensures forall e :: e in events <==> e == events[0] || e in events[1..]
  {
  }

  lemma SortedCons(e: Event, rest: seq<Event>)
    requires Sorted(rest) && forall x | x in rest :: e.id < x.id
    ensures Sorted([e] + rest)
    ensures forall x :: x in [e] + rest <==> x == e || x in rest
  {
  }

  lemma {:induction false} RemovedIs(events: seq<Event>, ids: set<int>)
    requires Sorted(events)
    ensures Sorted(Removed(events, ids))
    ensures forall e :: e in Removed(events, ids) <==> e in events && e.id !in ids
  {
    if events != [] {
      SortedTail(events);
      RemovedIs(events[1..], ids);
      if events[0].id !in ids {
        SortedCons(events[0], Removed(events[1..], ids));
      }
    }
  }

  lemma {:induction false} KeptIs(events: seq<Event>, offset: int, now: int, limit: nat)
    requires Sorted(events)
    ensures Sorted(Kept(events, offset, now, limit))
    ensures forall e | e in Kept(events, offset, now, limit) :: e in events
    ensures forall e | e in events && now <= e.expiresAt :: e in Kept(events, offset, now, limit)
  {
    if events != [] {
      SortedTail(events);
      var e := events[0];
      if e.id < offset {
        KeptIs(events[1..], offset, now, limit);
        SortedCons(e, Kept(events[1..], offset, now, limit));
      } else if e.expiresAt < now {
        KeptIs(events[1..], offset, now, limit);
      } else if limit > 0 {
        KeptIs(events[1..], offset, now, limit - 1);
        SortedCons(e, Kept(events[1..], offset, now, limit - 1));
      }
    }
  }

  /** got is a run of the readable events, with none left out. */
  ghost predicate IsRead(events: seq<Event>, offset: int, now: int, got: seq<Event>) {
    && Sorted(got)
    && (forall e | e in got :: e in events && offset <= e.id && now <= e.expiresAt)
    && (forall e, g | e in events && g in got && offset <= e.id <= g.id && now <= e.expiresAt :: e in got)
  }

  lemma {:induction false} TakenIs(events: seq<Event>, offset: int, now: int, limit: nat)
    requires Sorted(events)
    ensures IsRead(events, offset, now, Taken(events, offset, now, limit))
    ensures |Taken(events, offset, now, limit)| <= limit
    ensures |Taken(events, offset, now, limit)| < limit ==>
      forall e | e in events && offset <= e.id && now <= e.expiresAt :: e in Taken(events, offset, now, limit)
  {
    if events != [] {
      SortedTail(events);
      var e := events[0];
      if e.id < offset || e.expiresAt < now {
        TakenIs(events[1..], offset, now, limit);
      } else if limit > 0 {
        var rest := Taken(events[1..], offset, now, limit - 1);
        TakenIs(events[1..], offset, now, limit - 1);
        SortedCons(e, rest);
      }
    }
  }

}
