/** The in-process wake-up hub: one channel with a single slot for each subscription. */
module EventHub {
  import opened TaskTypes
  import Delivery

  type Channels = map<int, bool>

  type Subs = map<int, Delivery.Subscriber>

  /** The channel slot of a subscription. */
  function Held(subs: Subs, run: int, id: int): Option<bool> {
    if id in subs && subs[id].run == run then Some(subs[id].token) else None
  }

  class Hub {
    const process: int
    var nextId: nat
    var subscribers: map<int, Channels>

    constructor (process: int)
      ensures Valid() && this.process == process && Shows(map[])
    {
      this.process, nextId, subscribers := process, 0, map[];
    }

    /** Identifiers are never reused, and a run without subscribers has no entry. */
    ghost predicate Valid()
      reads this
    {
      && (forall run, id :: run in subscribers && id in subscribers[run] ==> 0 < id <= nextId)
      && (forall run :: run in subscribers ==> exists id :: id in subscribers[run])
    }

    /** The slot of an open channel: filled or not. */
    function Slot(run: int, id: int): Option<bool>
      reads this
    {
      if run in subscribers && id in subscribers[run] then Some(subscribers[run][id]) else None
    }

    /** The channels are those of the subscriptions in this process, keyed by their identifiers here, and
        hold their tokens. */
    ghost predicate Shows(subs: Subs)
      reads this
    {
      && (forall id :: id in subs ==> subs[id].home == process)
      && forall run, id :: Slot(run, id) == Held(subs, run, id)
    }

    method Subscribe(run: int, after: nat, ghost subs: Subs) returns (id: nat)
      requires Valid() && Shows(subs)
      modifies this
      ensures Valid() && id !in subs && old(Slot(run, id)) == None
      ensures forall r, i :: Slot(r, i) == if r == run && i == id then Some(false) else old(Slot(r, i))
      ensures Shows(subs[id := Delivery.Subscriber(run, process, after, after, [], Delivery.Listing, false)])
    {
      nextId := nextId + 1;
      id := nextId;
      var channels: Channels := if run in subscribers then subscribers[run] else map[];
      channels := channels[id := false];
      assert id in channels;
      subscribers := subscribers[run := channels];
      assert id in subs ==> old(Slot(subs[id].run, id)) == Held(subs, subs[id].run, id);
      ghost var more := subs[id := Delivery.Subscriber(run, process, after, after, [], Delivery.Listing, false)];
      forall r, i ensures Slot(r, i) == Held(more, r, i) { assert old(Slot(r, i)) == Held(subs, r, i); }
    }

    method Unsubscribe(run: int, id: int, ghost subs: Subs)
      requires Valid() && Shows(subs) && (id in subs ==> subs[id].run == run)
      modifies this
      ensures Valid()
      ensures forall r, i :: Slot(r, i) == if r == run && i == id then None else old(Slot(r, i))
      ensures Shows(subs - {id})
    {
      if run in subscribers {
        var rest := subscribers[run] - {id};
        assert forall i :: i in subscribers[run] && i != id ==> i in rest;
        if exists i :: i in rest {
          subscribers := subscribers[run := rest];
        } else {
          subscribers := subscribers - {run};
        }
      }
      forall r, i ensures Slot(r, i) == Held(subs - {id}, r, i) { assert old(Slot(r, i)) == Held(subs, r, i); }
    }

    /** Fills every slot of one run's channels; a full channel keeps its one token. */
    method Fill(channels: Channels) returns (filled: Channels)
      ensures filled.Keys == channels.Keys && forall id :: id in filled ==> filled[id]
    {
      filled := channels;
      var left := channels.Keys;
      while exists id :: id in left
        invariant filled.Keys == channels.Keys && left <= channels.Keys
        invariant forall id :: id in filled && id !in left ==> filled[id]
        decreases |left|
      {
        var id :| id in left;
        left := left - {id};
        if !filled[id] {
          filled := filled[id := true];
        }
      }
    }

    /** Wakes the subscribers of one run and blocks on none of them. */
    method Notify(run: int, ghost subs: Subs)
      requires Valid() && Shows(subs)
      modifies this
      ensures Valid()
      ensures forall r, i :: Slot(r, i) == if r == run && old(Slot(r, i)).Some? then Some(true) else old(Slot(r, i))
      ensures Shows(Delivery.Woken(subs, run, process))
    {
      if run in subscribers {
        var filled := Fill(subscribers[run]);
        assert forall id :: id in filled <==> id in subscribers[run];
        subscribers := subscribers[run := filled];
      }
      ghost var woken := Delivery.Woken(subs, run, process);
      forall r, i ensures Slot(r, i) == Held(woken, r, i) { assert old(Slot(r, i)) == Held(subs, r, i); }
    }

    /** A sleeping subscription takes its token, if there is one. */
    method Receive(run: int, id: int, ghost subs: Subs) returns (woken: bool)
      requires Valid() && Shows(subs) && id in subs && subs[id].run == run
      modifies this
      ensures Valid() && woken == subs[id].token
      ensures forall r, i :: Slot(r, i) == if r == run && i == id then Some(false) else old(Slot(r, i))
      ensures Shows(if woken then subs[id := Delivery.Awake(subs[id])] else subs)
    {
      assert Slot(run, id) == Held(subs, run, id);
      woken := subscribers[run][id];
      var channels := subscribers[run][id := false];
      assert id in channels;
      subscribers := subscribers[run := channels];
      ghost var after := if woken then subs[id := Delivery.Awake(subs[id])] else subs;
      forall r, i ensures Slot(r, i) == Held(after, r, i) { assert old(Slot(r, i)) == Held(subs, r, i); }
    }
  }
}
