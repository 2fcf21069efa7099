# Ansel request resolution, in Dafny

Ansel is a small asynchronous resource cache for Fyne applications. A caller
hands `Load(id, source, target)` a request; worker goroutines take it from a
channel and run `doLoad`, which

1. serves a cached `source` straight to the request's own `target` (read lock);
2. otherwise binds the identity `id` to `target` in the `pending` map — if
   `id` was already bound it only rebinds and stops, so requests whose bind
   happens while a load for their identity is in flight are coalesced into it;
3. otherwise calls the loader, and on success applies the optional loaded
   callback, caches the resource under `source`, delivers it to whichever
   target is bound to `id` at that moment and drops the binding. A failed
   load is only logged.

This project models those three lock sections as pure functions over the two
maps (`Engine`), the construction of an instance from defaults and options
(`Configuration`, `Engine.NewAnsel`), and every interleaving of the sections
of concurrent requests (`Interleaving`), over which it proves the coalescing
invariant: at most one load in flight per identity, each with its identity
bound, so the delivery lookup of a successful load always finds a target.

Files:

- `resources.dfy` — bytes, the static resource a load produces, the loader outcome, the loaded callback.
- `configuration.dfy` — the three options, their in-order application, the worker-start loop.
- `engine.dfy` — the shared state, `NewAnsel`, the hit / bind / resolve sections and an uninterrupted `doLoad`.
- `interleaving.dfy` — tasks by ticket, events, schedules, the invariant and the lemmas about it.
- `scenario.dfy` — concrete schedules: two coalesced requests and a later cache hit, the same on one worker, and a request that loads again after missing the cache.

Behaviour of the code worth knowing:

- The cache has no capacity and no eviction; a new load of a source overwrites its entry.
- A failed load does not remove the binding it created. The identity then stays
  bound with no load in flight, so every later miss for it only rebinds and the
  loader is never called for it again (`Interleaving.StrandedForever`).
- The hit check and the bind are separate lock sections. A request that
  missed the cache before a load for its identity resolved finds the binding
  gone when it binds, and loads the source again although it is cached by
  then; its result overwrites the entry (`Scenario.MissedRequestReloads`).
  `Interleaving.AtMostOneLoadPerIdentity` rules out two loads in flight at
  once for one identity, not a second load after the first resolved.
- The `cancel` map is created and never used; there is no cancellation.
- A worker count of zero or less is accepted and simply starts no worker.

The loader's result and the callback are inputs: the loader is a nondeterministic
`Loaded(bytes) | LoadFailed(err)` outcome given to the resolve step, the callback
an arbitrary total function on bytes. A `ResourceSetter` is an opaque handle and
each `SetResource` call an entry of a delivery log.

## Model

| member | source | states |
|---|---|---|
| `Engine.NewAnselSettings` | ansel.go:31-42 | `NewAnsel` builds an instance that starts with an empty cache and no bindings, and in which each setting equals the last option of its kind, or its default (HTTP loader, no callback, 10 workers) when no option sets it. |
| `Resources.MakeResource` | ansel.go:86-89 | The resource built from a successful load is named after its source; its content is the loaded bytes when no callback is set and the callback's output on those bytes otherwise. |
| `Configuration.Apply` | ansel.go:102-118 | Each option overwrites exactly the field it names and leaves the other two unchanged. |
| `Configuration.LaterOptionWins` | ansel.go:40-42 | `ApplyAll`, folding the options in order, gives, for each field, the value of the last option that sets it (found by scanning from the end), else the starting value. |
| `Configuration.StartWorkers` | ansel.go:46-48 | The worker loop starts exactly `workerCount` workers when that count is positive and none otherwise; the count constrains nothing else in the model. |
| `Engine.HitCheck` | ansel.go:67-73 | A request hits exactly when its source is cached, and a hit is delivered to the request's own target with the cached resource. |
| `Engine.Bind` | ansel.go:75-82 | After the bind the identity is bound to the request's target; the request goes on to load if and only if the identity was unbound; the cache and all other bindings are unchanged. |
| `Engine.Resolve` | ansel.go:84-99 | On success the source's entry becomes the resource built from the (callback-transformed) bytes, other sources keep their entries, the identity's binding is dropped with the others kept, and at most one delivery is made, to the target bound at resolve time; on failure nothing changes and nothing is delivered. |
| `Engine.DoLoad` | ansel.go:66-100 | Run alone: a hit delivers to the request's own target and changes nothing; a miss on a bound identity only rebinds; a miss on an unbound identity loads, and then either caches and delivers to the request's own target with the bindings restored, or on failure leaves the new binding and delivers nothing; the cache never loses a source. |
| `Interleaving.Step` | ansel.go:53-99 | Any single event keeps every cached source, leaves the configuration unchanged, and extends the delivery and loader logs by at most one entry each. |
| `Interleaving.Run` | ansel.go:90 | Over any schedule the cache key set only grows, the configuration never changes, and the logs only grow. |
| `Interleaving.InitInv` | ansel.go:32-35 | A fresh instance with no requests satisfies the coalescing invariant. |
| `Interleaving.StepPreservesInv` | ansel.go:75-94 | Every event preserves: tickets are fresh, every in-flight load's identity is bound, and no two in-flight loads share an identity. |
| `Interleaving.RunPreservesInv` | ansel.go:75-94 | The coalescing invariant holds after every schedule from a state that satisfies it. |
| `Interleaving.AtMostOneLoadPerIdentity` | ansel.go:75-82 | From construction, under any interleaving, two in-flight loads with the same identity are the same task. |
| `Interleaving.ResolveDeliversOnce` | ansel.go:85-95 | A successful resolve finds its identity bound, appends exactly one delivery — to the currently bound target, of the resource named after its own source — caches that resource, and drops only that binding. |
| `Interleaving.RebindRedirectsDelivery` | ansel.go:75-94 | A second request for an identity whose load is in flight redirects that load's single delivery to the second request's target, still with the first request's source, and causes no extra loader call. |
| `Interleaving.FailureStrands` | ansel.go:84-99 | A failed resolve leaves cache, bindings and delivery log unchanged, and the identity stays bound with no load in flight. |
| `Interleaving.StrandedStep` | ansel.go:75-82 | An identity bound with no load in flight stays so after any event, and that event does not call the loader for it. |
| `Interleaving.StrandedForever` | ansel.go:75-99 | After a failure, under any later schedule the identity stays bound and the loader is never called for it again. |
| `Interleaving.CachedSourceIsServed` | ansel.go:67-72 | A queued request whose source is cached is delivered the cached resource at its own target, with no state change and no loader call. |
| `Interleaving.LaterRequestHits` | ansel.go:67-72 | Once a source is cached, a request for it made after any schedule is served from the cache to its own target without a loader call. |
| `Interleaving.LoadEnqueues` | ansel.go:53-55 | Enqueueing adds the request under a fresh ticket and changes no shared state, delivers nothing and calls no loader. |
| `Scenario.CoalescedThenCached` | ansel.go:66-100 | On two workers, two requests for one identity that both miss before the load resolves cause one loader call and one delivery, to the second target; a later request for another identity and the same source is served from the cache. |
| `Scenario.MissedRequestReloads` | ansel.go:67-94 | On two workers, a second request for an identity that missed the cache before the first load resolved, and binds after it, finds no binding and calls the loader again: two loader calls, one delivery to each target, and the second result overwrites the cached entry. |
| `Scenario.OneWorkerServesEach` | ansel.go:57-100 | On one worker, which finishes each `doLoad` before taking the next request, the same requests cause one loader call with delivery to the first target, and the second and third requests are cache hits delivered to their own targets. |

## Left out

- The work channel (capacity 512), its FIFO order and the worker goroutines: every task's next section may run at any time, which includes every schedule the channel and a pool of any size allow; the bound the worker count puts on concurrent requests is not modelled.
- `sync.RWMutex`: each locked section is one atomic step; concurrent readers of the hit check are equivalent to running them one after another since they do not write.
- The loader call itself (`LoadHTTP` and any custom loader): network I/O, replaced by the outcome input. A nil loader, which would panic when called, is not modelled.
- `fyne.NewStaticResource` and `ResourceSetter.SetResource`: UI library types, abstracted as a named resource and a delivery log entry.
- The `cancel` map: created and never read or written.
- `log.Println` on failure: a side effect only.
- Options written by the caller as arbitrary closures over the instance: only the three options the package defines are modelled.
