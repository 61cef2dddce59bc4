/**
 * The event system (librichard/src/event_system.cpp): handlers registered
 * per event id under handler ids drawn from one counter shared by every
 * event system, raised in ascending handler-id order, and removed when the
 * handle `listen` returned is destroyed.
 *
 * A handler is represented by a token standing for the `std::function`;
 * `raise` returns the handlers it calls, in the order it calls them.
 */
module Events {
  /** `eventId_t`, a string hash. */
  type EventId = nat

  /** `handlerId_t`; 0 marks a handle that has been moved from. */
  type HandlerId = int

  /** A registered `EventHandler`. */
  datatype Handler = Handler(token: nat)

  /** `m_handlers[e]`: `operator[]` gives the empty map for an event nobody listens to. */
  function HandlersOf(m: map<EventId, map<HandlerId, Handler>>, e: EventId): map<HandlerId, Handler> {
    if e in m then m[e] else map[]
  }

  /*
   * Ascending key order, as a `std::map` iterates.
   */

  /** A set that is not empty has a member. */
  lemma Member(s: set<HandlerId>)
    ensures s == {} || exists y :: y in s
  {
    if forall y :: y !in s {
      assert s == {};
    }
  }

  /** Every non-empty finite set of ids has a least element. */
  lemma {:induction false} MinExists(s: set<HandlerId>)
    requires s != {}
    ensures exists m :: m in s && forall x | x in s :: m <= x
    decreases |s|
  {
    Member(s);
    var y :| y in s;
    var rest := s - {y};
    if rest != {} {
      MinExists(rest);
      var m :| m in rest && forall x | x in rest :: m <= x;
      var least := if y < m then y else m;
      forall x | x in s
        ensures least <= x
      {
        if x != y {
          assert x in rest;
        }
      }
    } else {
      forall x | x in s
        ensures y <= x
      {
        assert x !in rest;
      }
    }
  }

  /** The least id of a non-empty set. */
  ghost function Min(s: set<HandlerId>): (m: HandlerId)
    requires s != {}
    ensures m in s && forall x | x in s :: m <= x
  {
    MinExists(s);
    var m :| m in s && forall x | x in s :: m <= x;
    m
  }

  /**
   * The handlers `raise` calls for the handler map `hs`, in the order it
   * calls them: a `std::map` iterates its keys in ascending order.
   */
  ghost function Dispatch(hs: map<HandlerId, Handler>): (r: seq<Handler>)
    ensures |r| == |hs.Keys|
    decreases |hs.Keys|
  {
    if hs.Keys == {} then []
    else
      var m := Min(hs.Keys);
      assert (hs - {m}).Keys == hs.Keys - {m};
      [hs[m]] + Dispatch(hs - {m})
  }

  /** Raising an event nobody listens to calls nothing. */
  lemma DispatchNone(m: map<EventId, map<HandlerId, Handler>>, e: EventId)
    requires e !in m || m[e] == map[]
    ensures Dispatch(HandlersOf(m, e)) == []
  {
  }

  /** `raise` calls exactly the registered handlers: each one, and nothing else. */
  lemma {:induction false} DispatchCallsEach(hs: map<HandlerId, Handler>)
    ensures forall id | id in hs :: hs[id] in Dispatch(hs)
    ensures forall c | c in Dispatch(hs) :: exists id :: id in hs && hs[id] == c
    decreases |hs.Keys|
  {
    if hs.Keys != {} {
      var m := Min(hs.Keys);
      var rest := hs - {m};
      assert rest.Keys == hs.Keys - {m};
      DispatchCallsEach(rest);
      forall id | id in hs
        ensures hs[id] in Dispatch(hs)
      {
        if id != m {
          assert id in rest;
        }
      }
      forall c | c in Dispatch(hs)
        ensures exists id :: id in hs && hs[id] == c
      {
        if c != hs[m] {
          assert c in Dispatch(rest);
        }
      }
    }
  }

  /** A handler registered under a smaller id is called before one with a larger id. */
  lemma {:induction false} DispatchOrder(hs: map<HandlerId, Handler>, a: HandlerId, b: HandlerId)
    requires a in hs && b in hs && a < b
    ensures exists i, j :: 0 <= i < j < |Dispatch(hs)| && Dispatch(hs)[i] == hs[a] && Dispatch(hs)[j] == hs[b]
    decreases |hs.Keys|
  {
    var m := Min(hs.Keys);
    var rest := hs - {m};
    assert rest.Keys == hs.Keys - {m};
    var d, t := Dispatch(hs), Dispatch(rest);
    assert d == [hs[m]] + t;
    assert b in rest;
    if a == m {
      DispatchCallsEach(rest);
      var j :| 0 <= j < |t| && t[j] == hs[b];
      assert d[0] == hs[a] && d[j + 1] == hs[b];
    } else {
      DispatchOrder(rest, a, b);
      var i, j :| 0 <= i < j < |t| && t[i] == hs[a] && t[j] == hs[b];
      assert d[i + 1] == hs[a] && d[j + 1] == hs[b];
    }
  }

  /** Adding an id above every other leaves the least id, and removing that commutes with the addition. */
  lemma AppendLeast(hs: map<HandlerId, Handler>, id: HandlerId, h: Handler)
    requires hs.Keys != {} && forall x | x in hs :: x < id
    ensures Min(hs[id := h].Keys) == Min(hs.Keys)
    ensures hs[id := h] - {Min(hs.Keys)} == (hs - {Min(hs.Keys)})[id := h]
  {
    assert hs[id := h].Keys == hs.Keys + {id};
  }

  /** Registering one handler on an empty map calls just that handler. */
  lemma DispatchOne(hs: map<HandlerId, Handler>, id: HandlerId, h: Handler)
    requires hs.Keys == {}
    ensures Dispatch(hs[id := h]) == [h]
  {
    var hs' := hs[id := h];
    assert hs'.Keys == {id};
    assert (hs' - {id}).Keys == {};
  }

  /**
   * Ids only grow, so a handler registered under an id above every
   * registered one is called after all of them.
   */
  lemma {:induction false} DispatchAppend(hs: map<HandlerId, Handler>, id: HandlerId, h: Handler)
    requires forall x | x in hs :: x < id
    ensures Dispatch(hs[id := h]) == Dispatch(hs) + [h]
    decreases |hs.Keys|
  {
    var hs' := hs[id := h];
    if hs.Keys == {} {
      DispatchOne(hs, id, h);
    } else {
      var m := Min(hs.Keys);
      AppendLeast(hs, id, h);
      assert (hs - {m}).Keys == hs.Keys - {m};
      DispatchAppend(hs - {m}, id, h);
      assert Dispatch(hs') == [hs[m]] + (Dispatch(hs - {m}) + [h]);
    }
  }

  /** The handler `listen` just registered is called after every handler already there. */
  lemma ListenedCalledLast(m: map<EventId, map<HandlerId, Handler>>, e: EventId, id: HandlerId, h: Handler)
    requires forall x | x in HandlersOf(m, e) :: x < id
    ensures Dispatch(HandlersOf(Listened(m, e, id, h), e)) == Dispatch(HandlersOf(m, e)) + [h]
  {
    var hs := HandlersOf(m, e);
    assert HandlersOf(Listened(m, e, id, h), e) == hs[id := h];
    DispatchAppend(hs, id, h);
  }

  /** The least id of a set, found by a scan. */
  method MinOf(s: set<HandlerId>) returns (m: HandlerId)
    requires s != {}
    ensures m == Min(s)
  {
    Member(s);
    m :| m in s;
    var rest := s - {m};
    ghost var seen := {m};
    while rest != {}
      invariant m in s && seen + rest == s
      invariant forall x | x in seen :: m <= x
      decreases rest
    {
      Member(rest);
      var y :| y in rest;
      if y < m {
        m := y;
      }
      rest, seen := rest - {y}, seen + {y};
    }
    assert seen == s;
  }

  /** The loop of `raise`: the handlers, least id first. */
  method CallAll(hs: map<HandlerId, Handler>) returns (calls: seq<Handler>)
    ensures calls == Dispatch(hs)
  {
    calls := [];
    var rest := hs;
    while rest.Keys != {}
      invariant calls + Dispatch(rest) == Dispatch(hs)
      decreases |rest.Keys|
    {
      var id := MinOf(rest.Keys);
      assert (rest - {id}).Keys == rest.Keys - {id};
      assert Dispatch(rest) == [rest[id]] + Dispatch(rest - {id});
      assert calls + Dispatch(rest) == (calls + [rest[id]]) + Dispatch(rest - {id});
      calls := calls + [rest[id]];
      rest := rest - {id};
    }
  }

  /*
   * The registry.
   */

  /** `EventSystemImpl::nextId`: the one counter all event systems share. */
  class IdCounter {
    var next: HandlerId

    /** The counter starts at 1. */
    constructor ()
      ensures next == 1
    {
      next := 1;
    }
  }

  /** The effect of `listen(e, h)` with handler id `id`. */
  function Listened(m: map<EventId, map<HandlerId, Handler>>, e: EventId, id: HandlerId, h: Handler): (r: map<EventId, map<HandlerId, Handler>>)
    requires id !in HandlersOf(m, e)
    ensures r.Keys == m.Keys + {e}
    ensures HandlersOf(r, e).Keys == HandlersOf(m, e).Keys + {id} && HandlersOf(r, e)[id] == h
    ensures forall i | i in HandlersOf(m, e) :: HandlersOf(r, e)[i] == HandlersOf(m, e)[i]
    ensures forall e' | e' != e :: HandlersOf(r, e') == HandlersOf(m, e')
  {
    m[e := HandlersOf(m, e)[id := h]]
  }

  /** The effect of destroying the handle of handler `id` for event `e`. */
  function Erased(m: map<EventId, map<HandlerId, Handler>>, e: EventId, id: HandlerId): (r: map<EventId, map<HandlerId, Handler>>)
    ensures r.Keys == m.Keys + {e}
    ensures HandlersOf(r, e).Keys == HandlersOf(m, e).Keys - {id}
    ensures forall i | i in HandlersOf(r, e) :: HandlersOf(r, e)[i] == HandlersOf(m, e)[i]
    ensures forall e' | e' != e :: HandlersOf(r, e') == HandlersOf(m, e')
  {
    m[e := HandlersOf(m, e) - {id}]
  }

  /** Destroying the handle right after `listen` restores every event's handlers. */
  lemma EraseUndoesListen(m: map<EventId, map<HandlerId, Handler>>, e: EventId, id: HandlerId, h: Handler)
    requires id !in HandlersOf(m, e)
    ensures forall e' :: HandlersOf(Erased(Listened(m, e, id, h), e, id), e') == HandlersOf(m, e')
  {
    var r := Erased(Listened(m, e, id, h), e, id);
    assert HandlersOf(r, e) == HandlersOf(m, e);
  }

  class EventSystem {
    const counter: IdCounter
    var handlers: map<EventId, map<HandlerId, Handler>>

    /** Every registered id came from the counter: it is positive and below the next one. */
    ghost predicate Valid()
      reads this, counter
    {
      counter.next >= 1 &&
      forall e, id | e in handlers && id in handlers[e] :: 1 <= id < counter.next
    }

    constructor (counter: IdCounter)
      requires counter.next >= 1
      ensures Valid() && this.counter == counter && handlers == map[]
    {
      this.counter := counter;
      handlers := map[];
    }

    /**
     * `listen`: takes the next id from the shared counter and registers
     * the handler under it; the id is new, so nothing is overwritten.
     */
    method Listen(e: EventId, h: Handler) returns (handle: EventHandle)
      requires Valid()
      modifies this, counter
      ensures Valid() && fresh(handle)
      ensures counter.next == old(counter.next) + 1
      ensures handle.system == this && handle.eventId == e && handle.handlerId == old(counter.next) > 0
      ensures old(counter.next) !in HandlersOf(old(handlers), e)
      ensures handlers == Listened(old(handlers), e, old(counter.next), h)
    {
      var id := counter.next;
      counter.next := counter.next + 1;
      var hs := HandlersOf(handlers, e);
      if id !in hs {
        hs := hs[id := h];
      }
      handlers := handlers[e := hs];
      handle := new EventHandle(this, e, id);
    }

    /**
     * `raise`: calls every handler registered for the event, in ascending
     * id order. `operator[]` leaves an empty entry for an event nobody
     * listens to.
     */
    method Raise(e: EventId) returns (calls: seq<Handler>)
      modifies this
      ensures handlers == old(handlers)[e := HandlersOf(old(handlers), e)]
      ensures calls == Dispatch(HandlersOf(old(handlers), e))
    {
      var hs := HandlersOf(handlers, e);
      handlers := handlers[e := hs];
      calls := CallAll(hs);
    }
  }

  /** The handle `listen` returns. */
  class EventHandle {
    const system: EventSystem
    const eventId: EventId
    var handlerId: HandlerId

    constructor (system: EventSystem, eventId: EventId, handlerId: HandlerId)
      ensures this.system == system && this.eventId == eventId && this.handlerId == handlerId
    {
      this.system, this.eventId, this.handlerId := system, eventId, handlerId;
    }

    /** The move constructor: takes over the source's handler and sets the source's id to 0. */
    constructor Moved(mv: EventHandle)
      modifies mv
      ensures system == mv.system && eventId == mv.eventId && handlerId == old(mv.handlerId)
      ensures mv.handlerId == 0
    {
      system, eventId, handlerId := mv.system, mv.eventId, mv.handlerId;
      new;
      mv.handlerId := 0;
    }

    /** The destructor: removes this handle's handler, and nothing when the handle was moved from. */
    method Destroy()
      modifies system
      ensures handlerId != 0 ==> system.handlers == Erased(old(system.handlers), eventId, handlerId)
      ensures handlerId == 0 ==> system.handlers == old(system.handlers)
    {
      if handlerId != 0 {
        system.handlers := system.handlers[eventId := HandlersOf(system.handlers, eventId) - {handlerId}];
      }
    }
  }
}
