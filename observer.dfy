/** A sequential model of the generic broadcaster `Observer[T]`: a registry of
    subscriber channels keyed by a monotonically allocated id, with subscribe,
    cancel, notify-all, count and close operations.  Goroutines, locks and
    timers are abstracted away: every operation below is one linearised step. */
module Observer {

  datatype Option<T> = None | Some(value: T)

  /** The one error the registry reports: cancelling an id that is not registered. */
  datatype Error = ErrClientAlreadyDeRegistered

  /** `time.Duration` counts nanoseconds. */
  const Second: int := 1_000_000_000

  /** The delivery timeout used when `NotifyTimeout` is left at zero. */
  const DefaultNotifyTimeout: int := 5 * Second

  /** A subscriber's channel, seen abstractly: whether it has been closed, and
      the values that were handed to the subscriber through it, in order. */
  class Channel<T> {
    var closed: bool
    var delivered: seq<T>

    constructor ()
      ensures !closed && delivered == []
    {
      closed := false;
      delivered := [];
    }
  }

  /** The capability returned by `Subscribe`: bound to one observer and one id. */
  datatype CancelFunc<T> = CancelFunc(o: Observer<T>, id: int)

  /** The errors gathered by `Close`: a failed deletion adds its error. */
  function ErrorsOf(err: Option<Error>): (errs: seq<Error>)
    ensures errs == [] <==> err == None
  {
    match err
    case None => []
    case Some(e) => [e]
  }

  /** Picking from a non-empty set, as a map or registry iteration does. */
  lemma NonEmptyHasElement(s: set<int>)
    requires s != {}
    ensures exists k :: k in s
  {
    if forall k :: k !in s { assert false; }
  }

  class Observer<T> {
    /** Per-delivery timeout; zero means "use the default". */
    var NotifyTimeout: int
    /** The registry: subscriber id to that subscriber's channel. */
    var clients: map<int, Channel<T>>
    /** The last id handed out; ids are 1, 2, 3, ... */
    var n: int
    /** How many subscriptions have been cancelled successfully. */
    var numDeleted: int

    /** The channels of the registered subscribers. */
    function Channels(): set<Channel<T>>
      reads this
    {
      set id | id in clients :: clients[id]
    }

    /** The bookkeeping invariant that holds between operations. */
    ghost predicate Valid()
      reads this, Channels()
    {
      && (forall id :: id in clients ==> 1 <= id <= n)
      && |clients| == n - numDeleted
      && 0 <= numDeleted
      && (forall id :: id in clients ==> !clients[id].closed)
      && (forall id1, id2 :: id1 in clients && id2 in clients && id1 != id2 ==> clients[id1] != clients[id2])
    }

    /** The zero value, as built by `new(Observer[T])`. */
    constructor ()
      ensures Valid()
      ensures clients == map[] && n == 0 && numDeleted == 0 && NotifyTimeout == 0
      ensures Clients() == 0
    {
      NotifyTimeout := 0;
      clients := map[];
      n := 0;
      numDeleted := 0;
    }

    /** The timeout each delivery attempt waits for a receiver. */
    function EffectiveNotifyTimeout(): (d: int)
      reads this
      ensures d != 0
      ensures NotifyTimeout != 0 ==> d == NotifyTimeout
      ensures NotifyTimeout == 0 ==> d == DefaultNotifyTimeout
    {
      if NotifyTimeout != 0 then NotifyTimeout else DefaultNotifyTimeout
    }

    /** The number of registered subscribers, computed from the counters. */
    function Clients(): (count: int)
      reads this, Channels()
      requires Valid()
      ensures count == |clients|
      ensures count == 0 <==> clients == map[]
    {
      n - numDeleted
    }

    /** Registers a fresh open channel under the next id and returns it together
        with the capability that cancels exactly that id. */
    method Subscribe() returns (ch: Channel<T>, cancel: CancelFunc<T>)
      requires Valid()
      modifies this
      ensures Valid()
      ensures fresh(ch) && !ch.closed && ch.delivered == []
      ensures n == old(n) + 1 && cancel == CancelFunc(this, n)
      ensures n !in old(clients) && forall id :: id in old(clients) ==> id < n
      ensures clients == old(clients)[n := ch]
      ensures numDeleted == old(numDeleted) && NotifyTimeout == old(NotifyTimeout)
      ensures Clients() == old(Clients()) + 1
    {
      n := n + 1;
      ch := new Channel();
      clients := clients[n := ch];
      cancel := CancelFunc(this, n);
    }

    /** Removes `key`, closes its channel and counts the deletion; an absent key
        is reported and nothing changes. */
    method DeleteClient(key: int) returns (err: Option<Error>)
      requires Valid()
      modifies this, if key in clients then {clients[key]} else {}
      ensures Valid()
      ensures n == old(n) && NotifyTimeout == old(NotifyTimeout)
      ensures key in old(clients) ==>
        && err == None
        && clients == old(clients) - {key}
        && numDeleted == old(numDeleted) + 1
        && old(clients[key]).closed
        && old(clients[key]).delivered == old(clients[key].delivered)
      ensures key !in old(clients) ==>
        && err == Some(ErrClientAlreadyDeRegistered)
        && clients == old(clients)
        && numDeleted == old(numDeleted)
      ensures Clients() == old(Clients()) - (if err == None then 1 else 0)
    {
      if key !in clients {
        return Some(ErrClientAlreadyDeRegistered);
      }
      var c := clients[key];
      clients := clients - {key};
      numDeleted := numDeleted + 1;
      c.closed := true;
      err := None;
    }

    /** One delivery attempt to `key` (the body of a notifying goroutine).  An
        id that is no longer registered is skipped; `ready` says whether the
        receiver took the value before the timeout, otherwise it is dropped. */
    method DeliverTo(key: int, data: T, ready: bool)
      requires Valid()
      modifies if key in clients then {clients[key]} else {}
      ensures Valid()
      ensures key in clients ==>
        && !clients[key].closed
        && clients[key].delivered == old(clients[key].delivered) + (if ready then [data] else [])
    {
      if key !in clients {
        return;
      }
      var c := clients[key];
      if ready {
        c.delivered := c.delivered + [data];
      }
    }

    /** Attempts delivery of `data` to every id registered at call time; the
        ids in `ready` receive it, the others time out and drop it. */
    method NotifyAll(data: T, ready: set<int>)
      requires Valid()
      modifies Channels()
      ensures Valid()
      ensures forall id :: id in clients ==>
        && !clients[id].closed
        && clients[id].delivered == old(clients[id].delivered) + (if id in ready then [data] else [])
    {
      var pending := clients.Keys;
      while pending != {}
        invariant Valid()
        invariant pending <= clients.Keys
        invariant forall id :: id in clients && id !in pending ==>
          clients[id].delivered == old(clients[id].delivered) + (if id in ready then [data] else [])
        invariant forall id :: id in pending ==> clients[id].delivered == old(clients[id].delivered)
        decreases pending
      {
        NonEmptyHasElement(pending);
        var key :| key in pending;
        DeliverTo(key, data, key in ready);
        pending := pending - {key};
      }
    }

    /** Cancels every registered subscription; errors of individual
        cancellations are gathered (none arise in a sequential run). */
    method Close() returns (errs: seq<Error>)
      requires Valid()
      modifies this, Channels()
      ensures Valid()
      ensures errs == [] && clients == map[] && Clients() == 0
      ensures n == old(n) && NotifyTimeout == old(NotifyTimeout)
      ensures numDeleted == old(numDeleted) + |old(clients)|
      ensures forall id :: id in old(clients) ==>
        old(clients)[id].closed && old(clients)[id].delivered == old(clients[id].delivered)
    {
      ghost var all := clients;
      errs := [];
      while clients != map[]
        invariant Valid()
        invariant errs == []
        invariant n == old(n) && NotifyTimeout == old(NotifyTimeout)
        invariant forall id :: id in clients ==> id in all && clients[id] == all[id]
        invariant numDeleted == old(numDeleted) + |all| - |clients|
        invariant forall id :: id in all && id !in clients ==>
          all[id].closed && all[id].delivered == old(all[id].delivered)
        invariant forall id :: id in clients ==> all[id].delivered == old(all[id].delivered)
        decreases |clients|
      {
        NonEmptyHasElement(clients.Keys);
        var key :| key in clients;
        var err := DeleteClient(key);
        errs := errs + ErrorsOf(err);
      }
    }
  }

  /** Invoking a cancel capability: deletes the id it is bound to. */
  method Cancel<T>(f: CancelFunc<T>) returns (err: Option<Error>)
    requires f.o.Valid()
    modifies f.o, if f.id in f.o.clients then {f.o.clients[f.id]} else {}
    ensures f.o.Valid()
    ensures f.o.n == old(f.o.n) && f.o.NotifyTimeout == old(f.o.NotifyTimeout)
    ensures f.id in old(f.o.clients) ==>
      && err == None
      && f.o.clients == old(f.o.clients) - {f.id}
      && f.o.numDeleted == old(f.o.numDeleted) + 1
      && old(f.o.clients[f.id]).closed
      && old(f.o.clients[f.id]).delivered == old(f.o.clients[f.id].delivered)
    ensures f.id !in old(f.o.clients) ==>
      && err == Some(ErrClientAlreadyDeRegistered)
      && f.o.clients == old(f.o.clients)
      && f.o.numDeleted == old(f.o.numDeleted)
  {
    err := f.o.DeleteClient(f.id);
  }
}
