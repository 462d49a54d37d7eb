# observer — a verified model of the generic broadcaster

This project models `Observer[T]` from the Go package `observer`. It is an
in-process publish/subscribe hub. Each call to `Subscribe` registers a fresh
channel under the next integer id and returns a cancel capability bound to that
id. `NotifyAll` attempts to hand a value to every registered channel, and drops
it for a receiver that is not ready within the timeout. `Clients` reports
`n - numDeleted`. `Close` cancels every registration. `Handle` builds a consumer
loop over one subscription.

The model is sequential. Every operation is one linearised step. Goroutines, the
`sync.RWMutex`, the atomics and `sync.Map` are replaced by plain fields.

- `observer.dfy`, module `Observer`:
  - `Channel<T>` is a class with `closed` and `delivered`. It is a reference
    object, like a Go channel, so a cancelled subscriber still holds its closed
    channel after the registry drops it.
  - `Observer<T>` is a class with the fields `NotifyTimeout`, `clients` (a map
    from id to channel), `n` and `numDeleted`.
  - `Valid()` is the bookkeeping invariant:
    - every registered id lies in `1..n`;
    - `|clients| == n - numDeleted`;
    - every registered channel is open;
    - no two ids share a channel.
  - `CancelFunc` is a datatype that holds the observer and the bound id.
    `Cancel` invokes it.
- `handle.dfy`, module `ObserverHandle`: the consumer built by `Handle`.
  - What the consumer observes is a finite trace of events: a message, the
    channel closed, or the context done.
  - The handler is a function parameter.
  - `Consume` is the termination rule as a function. `ConsumeLoop` is the
    `for`/`select` loop, proved equal to it.
- `scenarios.dfy`, module `ObserverScenarios`: runs that start from the zero
  value. `SubscribeCount`, the first half of `CancelEachTwice`, and
  `NotifyReachesEverySubscriber` state what the package's tests check:
  - the count after subscribing;
  - every cancel capability called once brings the count back to zero;
  - a value sent with `NotifyAll` reaches every receiving subscriber.

  The tests call each capability only once and never call `Close`. The second
  half of `CancelEachTwice` comes from the absent-key branch of
  `deleteClient` (`observer.go:57-60`). `CloseThenCancel` comes from `Close`
  (`observer.go:117-126`). The remaining scenarios come from `NotifyAll`
  (`observer.go:67-86`).

Where the sources disagree, the model follows `observer.go`.
`observer_test.go:345` and `_example/handler/main.go:41` take two results from
`Handle`, but `observer.go:96` returns only the consumer function. The comment
at `observer.go:25-27` points to a `NewObserver` constructor that does not exist.
The zero value, `new(Observer[T])`, is what the tests use, and the model's
constructor builds it.

## Model

| member | source | states |
|---|---|---|
| `Observer.Observer.constructor` | observer.go:28-34 | the zero value is valid and has no clients, both counters are 0, the timeout is unset, and `Clients() == 0` |
| `Observer.Observer.EffectiveNotifyTimeout` | observer.go:36-41 | the configured timeout when it is non-zero, otherwise 5 seconds in nanoseconds; never zero |
| `Observer.Observer.Clients` | observer.go:89-92 | `n - numDeleted` equals the number of registered subscribers, and it is 0 exactly when the registry is empty |
| `Observer.Observer.Subscribe` | observer.go:45-52 | allocates id `n+1`, which is larger than every registered id; registers a fresh open empty channel under it; changes nothing else; returns the capability bound to that id; `Clients()` goes up by one; the invariant is kept |
| `Observer.Observer.DeleteClient` | observer.go:54-64 | registered key: removed, its channel closed with its deliveries kept, `numDeleted` up by one, no error. Absent key: `ErrClientAlreadyDeRegistered` and no change. The invariant is kept, so a channel is never closed twice |
| `Observer.Cancel` | observer.go:49-51 | calling the capability deletes exactly its bound id from its own observer, with `DeleteClient`'s two outcomes |
| `Observer.Observer.DeliverTo` | observer.go:69-84 | one delivery attempt. An unregistered id is skipped and nothing changes. A registered open channel gets `data` appended if the receiver was ready; otherwise the value is dropped |
| `Observer.Observer.NotifyAll` | observer.go:67-87 | the registry and counters are unchanged. Every registered channel stays open, and its deliveries grow by `data` if it was ready and stay the same if not. Channels outside the registry are untouched |
| `Observer.ErrorsOf` | observer.go:120-122 | a deletion adds an error to `Close`'s aggregate exactly when it failed |
| `Observer.Observer.Close` | observer.go:117-126 | every registered subscriber is removed and its channel closed with its deliveries kept. `numDeleted` goes up by the number removed, `Clients() == 0`, and no error is returned |
| `ObserverHandle.ReturnedError` | observer.go:102-110 | for each stop reason, the error the consumer function returns. `ReturnedErrorAtFirst` ties it to the trace; `Handle` returns it |
| `ObserverHandle.Consume` | observer.go:100-112 | the loop's termination rule. It keeps running while every event is a message the handler accepts, and stops at the first other event for that event's reason. Every stop is caused by an event of the trace: a closed channel, a done context, or a message for which the handler returned exactly that error |
| `ObserverHandle.ReturnedErrorAtFirst` | observer.go:100-112 | the consumer function returns a value set by the first event that does not continue the loop: the handler's error for a rejected message, nil for a closed channel, and the context's error for a done context |
| `ObserverHandle.ConsumeRunningIff` | observer.go:100-112 | the loop is still running after a trace exactly when every event was a message that the handler accepted |
| `ObserverHandle.ConsumeStopsAtFirst` | observer.go:100-112 | the loop stops at the first event that is not an accepted message, with that event's stop reason |
| `ObserverHandle.ConsumeAppend` | observer.go:100-112 | events after the stop are never consumed; while the loop runs, the rest of the trace alone decides the outcome |
| `ObserverHandle.ConsumeLoop` | observer.go:100-112 | the event-by-event loop ends in the state `Consume` gives for the trace |
| `ObserverHandle.Handle` | observer.go:96-114 | subscribes once and runs the loop. On stopping, it returns the consumer function's error, `ReturnedError` of the reason `Consume` gives, and releases the subscription exactly once: the registry is back as it was, `numDeleted` is up by one and `n` is up by one. While running, the new subscription stays registered |
| `ObserverScenarios.SubscribeFresh` | observer_test.go:129-133 | `k` subscriptions on a zero-value observer hand out the ids `1..k`, all registered, with the capabilities in order |
| `ObserverScenarios.SubscribeCount` | observer_test.go:130-138 | after `k` subscriptions on a zero-value observer, `Clients() == k` |
| `ObserverScenarios.CancelEachTwice` | observer.go:57-60 | the first call of every capability (the run of observer_test.go:130-150) returns nil and brings `Clients()` from `k` to 0; a second call of each returns `ErrClientAlreadyDeRegistered` and `Clients()` stays 0 |
| `ObserverScenarios.CloseThenCancel` | observer.go:117-126 | `Close` on `k` subscribers returns no error and leaves `Clients() == 0`; every capability called afterwards reports `ErrClientAlreadyDeRegistered` |
| `ObserverScenarios.NotifyReachesEverySubscriber` | observer_test.go:203-222 | with three receiving subscribers, one `NotifyAll` delivers the value to each of them exactly once |
| `ObserverScenarios.CancelledSubscriberReceivesNothing` | observer.go:67-75 | a cancelled subscriber's channel stays closed and receives nothing; a second cancel is refused; the other subscriber receives; `Clients() == 1` |
| `ObserverScenarios.SlowSubscriberMissesValue` | observer.go:76-83 | a receiver that is not ready misses the value, the ready one gets it, and the count is unchanged |

## Left out

- Goroutines, `sync.RWMutex`, `sync/atomic` and the concurrent behaviour of `sync.Map`. Each operation is one atomic step, so races between Subscribe, cancel, NotifyAll and Close are not modelled.
- Observer.Observer.NotifyAll: each delivery attempt finishes before the call returns. In the source, attempts run in goroutines that outlive the call. So values from consecutive `NotifyAll` calls may reach one subscriber in either order, and a cancel may land between the key snapshot and the lookup. `DeliverTo` models that lookup's skip on its own.
- Observer.Observer.DeliverTo: blocking sends and `time.After` are replaced by a `ready` flag (for `NotifyAll`, a `ready` set of ids). The flag says whether the receiver took the value before the timeout. Wall-clock time is not modelled, and `EffectiveNotifyTimeout` is not connected to it.
- Observer.Observer.Subscribe: ids and counters are unbounded integers. Wrap-around of the `int64` counter after 2^63-1 subscriptions is not modelled.
- Observer.Observer.Close: the `go-multierror` aggregate is a sequence of errors, where the empty sequence stands for nil.
- ObserverHandle.Handle: `context.Context`, `errgroup` and the channel receive are replaced by an abstract event trace, and the handler by a function. The subscription taken when `Handle` is called and the loop run by the returned function are merged into one call. A `ChannelClosed` event is not tied to the registry's state: the model releases through the capability whatever the trace says, and ignores that call's error as the source's deferred call does.
- The `Observable[T]` interface: the model calls the class directly.
- A keyed registry (register, de-register or notify by a caller-chosen key) is not part of this model, because `observer.go` has none.
- The example programs under `_example/` are drivers with printing and sleeping and are not part of this model.
