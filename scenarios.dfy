/** Runs of the broadcaster from its zero value, with what each run promises
    about counts, cancellation results and delivered values. */
module ObserverScenarios {
  import opened Observer

  /** Subscribes `k` times to a new observer, keeping the cancel capabilities
      in the order they were handed out. */
  method SubscribeFresh(k: nat) returns (o: Observer<int>, cancels: seq<CancelFunc<int>>)
    ensures fresh(o) && o.Valid()
    ensures forall id :: id in o.clients ==> fresh(o.clients[id])
    ensures o.n == k && o.numDeleted == 0
    ensures |cancels| == k
    ensures forall j :: 0 <= j < k ==> cancels[j] == CancelFunc(o, j + 1)
    ensures forall j :: 0 <= j < k ==> cancels[j].id in o.clients
  {
    o := new Observer();
    cancels := [];
    var i := 0;
    while i < k
      invariant 0 <= i <= k
      invariant fresh(o) && o.Valid()
      invariant forall id :: id in o.clients ==> fresh(o.clients[id])
      invariant o.n == i && o.numDeleted == 0
      invariant |cancels| == i
      invariant forall j :: 0 <= j < i ==> cancels[j] == CancelFunc(o, j + 1)
      invariant forall j :: 0 <= j < i ==> cancels[j].id in o.clients
    {
      var _, cancel := o.Subscribe();
      cancels := cancels + [cancel];
      i := i + 1;
    }
  }

  /** After `k` subscriptions on a zero-value observer, `Clients()` is `k`. */
  method SubscribeCount(k: nat) returns (count: int)
    ensures count == k
  {
    var o, _ := SubscribeFresh(k);
    count := o.Clients();
  }

  /** Subscribes `k` times, calls every cancel capability once and then once
      more: the first calls all succeed and bring `Clients()` back to zero,
      the second calls all report the id as already de-registered and change
      nothing. */
  method CancelEachTwice(k: nat) returns (before: int, first: seq<Option<Error>>, between: int,
                                          second: seq<Option<Error>>, after: int)
    ensures before == k && between == 0 && after == 0
    ensures |first| == k && forall j :: 0 <= j < k ==> first[j] == None
    ensures |second| == k && forall j :: 0 <= j < k ==> second[j] == Some(ErrClientAlreadyDeRegistered)
  {
    var o, cancels := SubscribeFresh(k);
    before := o.Clients();
    first := [];
    var i := 0;
    while i < k
      invariant 0 <= i <= k
      invariant fresh(o) && o.Valid()
      invariant forall id :: id in o.clients ==> fresh(o.clients[id])
      invariant o.n == k && o.numDeleted == i
      invariant forall j :: i <= j < k ==> cancels[j].id in o.clients
      invariant |first| == i && forall j :: 0 <= j < i ==> first[j] == None
    {
      var err := Cancel(cancels[i]);
      first := first + [err];
      i := i + 1;
    }
    between := o.Clients();
    second := [];
    i := 0;
    while i < k
      invariant 0 <= i <= k
      invariant fresh(o) && o.Valid()
      invariant o.clients == map[] && o.n == k && o.numDeleted == k
      invariant |second| == i && forall j :: 0 <= j < i ==> second[j] == Some(ErrClientAlreadyDeRegistered)
    {
      var err := Cancel(cancels[i]);
      second := second + [err];
      i := i + 1;
    }
    after := o.Clients();
  }

  /** Subscribes `k` times and closes the observer: no error, no subscriber
      left, and every cancel capability called afterwards reports the id as
      already de-registered. */
  method CloseThenCancel(k: nat) returns (errs: seq<Error>, count: int, late: seq<Option<Error>>)
    ensures errs == [] && count == 0
    ensures |late| == k && forall j :: 0 <= j < k ==> late[j] == Some(ErrClientAlreadyDeRegistered)
  {
    var o, cancels := SubscribeFresh(k);
    errs := o.Close();
    count := o.Clients();
    late := [];
    var i := 0;
    while i < k
      invariant 0 <= i <= k
      invariant fresh(o) && o.Valid() && o.clients == map[]
      invariant |late| == i && forall j :: 0 <= j < i ==> late[j] == Some(ErrClientAlreadyDeRegistered)
    {
      var err := Cancel(cancels[i]);
      late := late + [err];
      i := i + 1;
    }
  }

  /** Three subscribers that are all receiving: one `NotifyAll` hands the
      value to each of them exactly once. */
  method NotifyReachesEverySubscriber() returns (d1: seq<int>, d2: seq<int>, d3: seq<int>)
    ensures d1 == [1] && d2 == [1] && d3 == [1]
  {
    var o := new Observer();
    var c1, _ := o.Subscribe();
    var c2, _ := o.Subscribe();
    var c3, _ := o.Subscribe();
    assert o.clients == map[1 := c1, 2 := c2, 3 := c3];
    o.NotifyAll(1, {1, 2, 3});
    d1, d2, d3 := c1.delivered, c2.delivered, c3.delivered;
  }

  /** Two subscribers; the first is cancelled, and cancelling it again is
      refused.  A later `NotifyAll` reaches only the one still registered, and
      the cancelled channel stays closed and receives nothing. */
  method CancelledSubscriberReceivesNothing() returns (d1: seq<int>, d2: seq<int>, closed1: bool,
                                                       cancel1: Option<Error>, again: Option<Error>, count: int)
    ensures d1 == [] && closed1
    ensures d2 == [2]
    ensures cancel1 == None && again == Some(ErrClientAlreadyDeRegistered)
    ensures count == 1
  {
    var o := new Observer();
    var c1, f1 := o.Subscribe();
    var c2, _ := o.Subscribe();
    cancel1 := Cancel(f1);
    again := Cancel(f1);
    assert o.clients == map[2 := c2];
    o.NotifyAll(2, {1, 2});
    count := o.Clients();
    d1, d2, closed1 := c1.delivered, c2.delivered, c1.closed;
  }

  /** Two subscribers of which only the first takes the value before the
      timeout: the second misses it, and nothing else changes. */
  method SlowSubscriberMissesValue() returns (d1: seq<int>, d2: seq<int>, count: int)
    ensures d1 == [3] && d2 == []
    ensures count == 2
  {
    var o := new Observer();
    var c1, _ := o.Subscribe();
    var c2, _ := o.Subscribe();
    assert o.clients == map[1 := c1, 2 := c2];
    o.NotifyAll(3, {1});
    count := o.Clients();
    d1, d2 := c1.delivered, c2.delivered;
  }
}
