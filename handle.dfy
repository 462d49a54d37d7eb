/** The repetitive message consumer built by `Handle`: it subscribes, then
    receives and handles one message at a time until the channel is closed,
    the context is done or the handler fails, and finally releases its
    subscription.  What the consumer observes is given as a finite trace of
    events; the handler is a function parameter. */
module ObserverHandle {
  import opened Observer

  /** What one turn of the receive loop observes. */
  datatype Event<T> =
    | Message(v: T)     // a value arrived on the subscription channel
    | ChannelClosed     // the subscription channel was closed
    | ContextDone       // the context was cancelled

  /** Why the consumer stopped. */
  datatype StopReason<E> =
    | Closed                  // returns nil
    | Cancelled               // returns the context's error
    | HandlerFailed(err: E)   // returns the handler's error

  /** The consumer's state after a trace: still waiting for the next event,
      or stopped for a reason. */
  datatype Status<E> = Running | Stopped(reason: StopReason<E>)

  /** The error value the consumer's function returns, for each reason. */
  datatype HandleError<E> = ContextError | HandlerError(e: E)

  function ReturnedError<E>(reason: StopReason<E>): (err: Option<HandleError<E>>)
    ensures err == None <==> reason.Closed?
    ensures reason.HandlerFailed? ==> err == Some(HandlerError(reason.err))
    ensures reason.Cancelled? ==> err == Some(ContextError)
  {
    match reason
    case Closed => None
    case Cancelled => Some(ContextError)
    case HandlerFailed(e) => Some(HandlerError(e))
  }

  /** An event after which the loop keeps going: a message the handler accepts. */
  predicate Continues<T, E>(h: T -> Option<E>, e: Event<T>)
  {
    e.Message? && h(e.v).None?
  }

  /** The reason an event that does not continue the loop stops it with. */
  function StopReasonOf<T, E>(h: T -> Option<E>, e: Event<T>): StopReason<E>
    requires !Continues(h, e)
  {
    match e
    case ContextDone => Cancelled
    case ChannelClosed => Closed
    case Message(v) => HandlerFailed(h(v).value)
  }

  /** The termination rule of the loop, event by event.  A stop is always
      caused by an event of the trace: a closed channel, a done context or a
      message the handler rejects. */
  function Consume<T, E>(trace: seq<Event<T>>, h: T -> Option<E>): (s: Status<E>)
    ensures s.Stopped? ==> trace != []
    ensures s.Stopped? && s.reason.Closed? ==> ChannelClosed in trace
    ensures s.Stopped? && s.reason.Cancelled? ==> ContextDone in trace
    ensures s.Stopped? && s.reason.HandlerFailed? ==>
      exists i :: 0 <= i < |trace| && trace[i].Message? && h(trace[i].v) == Some(s.reason.err)
  {
    if trace == [] then Running
    else if Continues(h, trace[0]) then Consume(trace[1..], h)
    else Stopped(StopReasonOf(h, trace[0]))
  }

  /** The consumer is still running exactly when the handler accepted every
      event of the trace. */
  lemma {:induction false} ConsumeRunningIff<T, E>(trace: seq<Event<T>>, h: T -> Option<E>)
    ensures Consume(trace, h).Running? <==> forall i :: 0 <= i < |trace| ==> Continues(h, trace[i])
  {
    if trace != [] {
      ConsumeRunningIff(trace[1..], h);
      if Continues(h, trace[0]) {
        assert forall i :: 1 <= i < |trace| ==> trace[i] == trace[1..][i - 1];
      }
    }
  }

  /** The consumer stops at the first event that is not an accepted message,
      for that event's reason: the first handler error, nil on a closed
      channel, or the context's error. */
  lemma {:induction false} ConsumeStopsAtFirst<T, E>(trace: seq<Event<T>>, h: T -> Option<E>, i: nat)
    requires i < |trace|
    requires forall j :: 0 <= j < i ==> Continues(h, trace[j])
    requires !Continues(h, trace[i])
    ensures Consume(trace, h) == Stopped(StopReasonOf(h, trace[i]))
  {
    if i > 0 {
      assert Continues(h, trace[0]);
      assert forall j :: 0 <= j < i - 1 ==> trace[1..][j] == trace[j + 1];
      ConsumeStopsAtFirst(trace[1..], h, i - 1);
    }
  }

  /** What the consumer function returns: for the first event that does not
      continue the loop, the handler's error for a rejected message, nil for a
      closed channel and the context's error for a done context. */
  lemma ReturnedErrorAtFirst<T, E>(trace: seq<Event<T>>, h: T -> Option<E>, i: nat)
    requires i < |trace|
    requires forall j :: 0 <= j < i ==> Continues(h, trace[j])
    requires !Continues(h, trace[i])
    ensures Consume(trace, h).Stopped?
    ensures trace[i].Message? ==> ReturnedError(Consume(trace, h).reason) == Some(HandlerError(h(trace[i].v).value))
    ensures trace[i].ChannelClosed? ==> ReturnedError(Consume(trace, h).reason) == None
    ensures trace[i].ContextDone? ==> ReturnedError(Consume(trace, h).reason) == Some(ContextError)
  {
    ConsumeStopsAtFirst(trace, h, i);
  }

  /** Events after the loop stopped are never looked at; while it runs, the
      rest of the trace alone decides the outcome. */
  lemma {:induction false} ConsumeAppend<T, E>(t1: seq<Event<T>>, t2: seq<Event<T>>, h: T -> Option<E>)
    ensures Consume(t1 + t2, h) == if Consume(t1, h).Running? then Consume(t2, h) else Consume(t1, h)
  {
    if t1 == [] {
      assert t1 + t2 == t2;
    } else {
      assert (t1 + t2)[0] == t1[0];
      assert (t1 + t2)[1..] == t1[1..] + t2;
      ConsumeAppend(t1[1..], t2, h);
    }
  }

  /** The `for`/`select` loop: receives one event per turn until it stops or
      the trace is exhausted. */
  method ConsumeLoop<T, E>(trace: seq<Event<T>>, h: T -> Option<E>) returns (status: Status<E>)
    ensures status == Consume(trace, h)
  {
    status := Running;
    var i := 0;
    while i < |trace| && status.Running?
      invariant 0 <= i <= |trace|
      invariant status.Running? ==> Consume(trace[i..], h) == Consume(trace, h)
      invariant status.Stopped? ==> status == Consume(trace, h)
      decreases |trace| - i
    {
      assert trace[i..][0] == trace[i] && trace[i..][1..] == trace[i + 1..];
      match trace[i] {
        case ContextDone =>
          status := Stopped(Cancelled);
        case ChannelClosed =>
          status := Stopped(Closed);
        case Message(v) =>
          var err := h(v);
          if err.Some? {
            status := Stopped(HandlerFailed(err.value));
          }
      }
      i := i + 1;
    }
  }

  /** Subscribes to `o`, runs the loop over `trace`, and on stopping releases
      the subscription through its cancel capability (its error is ignored)
      and returns the consumer function's error; while running, nothing has
      been returned yet and `err` is `None`. */
  method Handle<T, E>(o: Observer<T>, trace: seq<Event<T>>, h: T -> Option<E>)
    returns (status: Status<E>, err: Option<HandleError<E>>)
    requires o.Valid()
    modifies o
    ensures o.Valid()
    ensures status == Consume(trace, h)
    ensures err == if status.Stopped? then ReturnedError(status.reason) else None
    ensures o.n == old(o.n) + 1 && o.NotifyTimeout == old(o.NotifyTimeout)
    ensures status.Stopped? ==>
      o.clients == old(o.clients) && o.numDeleted == old(o.numDeleted) + 1
    ensures status.Running? ==>
      && o.n !in old(o.clients)
      && o.n in o.clients
      && o.clients == old(o.clients)[o.n := o.clients[o.n]]
      && o.numDeleted == old(o.numDeleted)
  {
    var msgs, unsub := o.Subscribe();
    status := ConsumeLoop(trace, h);
    err := None;
    if status.Stopped? {
      err := ReturnedError(status.reason);
      var _ := Cancel(unsub);
      assert o.clients == old(o.clients)[o.n := msgs] - {o.n};
    }
  }
}
