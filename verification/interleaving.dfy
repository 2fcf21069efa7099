/**
 Requests interleaved between lock sections.

 Each request handed to `Load` becomes a task with a ticket. A task is queued
 until a worker runs its hit check, is `Missed` between the read-locked hit
 check and the write-locked bind (ansel.go:73-75), and is `Fetching` while its
 loader call is outstanding (between ansel.go:82 and ansel.go:85). Any task's
 next section may run at any time, so every schedule of the worker pool is one
 sequence of events here; the lock makes each section atomic.
 */
module Interleaving {
  import opened Resources
  import opened Configuration
  import opened Engine

  datatype Phase = Queued | Missed | Fetching

  datatype Task<I> = Task(u: Unit<I>, phase: Phase)

  /** The shared state, the live tasks by ticket, the next free ticket, every
      delivery made so far and every request that called the loader. */
  datatype World<I(==)> = World(
    a: Ansel<I>,
    tasks: map<nat, Task<I>>,
    next: nat,
    log: seq<Delivery>,
    loads: seq<Unit<I>>)

  datatype Event<I> =
    | Load(u: Unit<I>)
    | CheckHit(ticket: nat)
    | BindTask(ticket: nat)
    | ResolveTask(ticket: nat, outcome: Outcome)

  function Init<I(==)>(a: Ansel<I>): World<I> {
    World(a, map[], 0, [], [])
  }

  predicate InPhase<I(==)>(w: World<I>, k: nat, p: Phase) {
    k in w.tasks && w.tasks[k].phase == p
  }

  /** Ticket `k` has called the loader and not yet resolved. */
  ghost predicate InFlight<I>(w: World<I>, k: nat) {
    InPhase(w, k, Fetching)
  }

  /** One event. `Load` enqueues (ansel.go:53-55); the other three run one
      lock section of a live task in the matching phase and otherwise do
      nothing. Whatever happens, cached sources stay cached, the
      configuration is unchanged, and the delivery and loader logs only grow,
      by at most one entry each. */
  function Step<I(==)>(w: World<I>, e: Event<I>): (w': World<I>)
    ensures w.a.cache.Keys <= w'.a.cache.Keys
    ensures w'.a.config == w.a.config
    ensures w.log <= w'.log && |w'.log| <= |w.log| + 1
    ensures w.loads <= w'.loads && |w'.loads| <= |w.loads| + 1
  {
    match e
    case Load(u) =>
      w.(tasks := w.tasks[w.next := Task(u, Queued)], next := w.next + 1)
    case CheckHit(k) =>
      if !InPhase(w, k, Queued) then w
      else
        var u := w.tasks[k].u;
        (match HitCheck(w.a, u)
         case Hit(d) => w.(tasks := w.tasks - {k}, log := w.log + [d])
         case Miss => w.(tasks := w.tasks[k := Task(u, Missed)]))
    case BindTask(k) =>
      if !InPhase(w, k, Missed) then w
      else
        var u := w.tasks[k].u;
        var b := Bind(w.a, u);
        if b.startFetch then
          w.(a := b.after, tasks := w.tasks[k := Task(u, Fetching)], loads := w.loads + [u])
        else
          w.(a := b.after, tasks := w.tasks - {k})
    case ResolveTask(k, outcome) =>
      if !InPhase(w, k, Fetching) then w
      else
        var u := w.tasks[k].u;
        var r := Resolve(w.a, u, outcome);
        w.(a := r.after, tasks := w.tasks - {k}, log := w.log + r.delivered)
  }

  /** A schedule of events, run in order. Over any schedule cached sources
      stay cached, the configuration is unchanged and both logs only grow. */
  function Run<I(==)>(w: World<I>, evs: seq<Event<I>>): (w': World<I>)
    ensures w.a.cache.Keys <= w'.a.cache.Keys
    ensures w'.a.config == w.a.config
    ensures w.log <= w'.log && w.loads <= w'.loads
    decreases |evs|
  {
    if |evs| == 0 then w else Run(Step(w, evs[0]), evs[1..])
  }

  // ---------------------------------------------------------------------
  // Coalescing invariant.

  /** Tickets are below the counter; every in-flight load has its identity
      bound; no two in-flight loads share an identity. */
  ghost predicate Inv<I>(w: World<I>) {
    && (forall k :: k in w.tasks ==> k < w.next)
    && (forall k :: InFlight(w, k) ==> w.tasks[k].u.id in w.a.pending)
    && (forall k, j :: InFlight(w, k) && InFlight(w, j) && w.tasks[k].u.id == w.tasks[j].u.id ==> k == j)
  }

  lemma InitInv<I>(a: Ansel<I>)
    ensures Inv(Init(a))
  {
  }

  /** Every event keeps the coalescing invariant (ansel.go:75-82, ansel.go:91-94). */
  lemma StepPreservesInv<I>(w: World<I>, e: Event<I>)
    requires Inv(w)
    ensures Inv(Step(w, e))
  {
  }

  /** Under every schedule from a state satisfying the invariant — in
      particular from a freshly constructed instance — there is at most one
      in-flight load per identity, and each has its identity bound. */
  lemma {:induction false} RunPreservesInv<I>(w: World<I>, evs: seq<Event<I>>)
    requires Inv(w)
    ensures Inv(Run(w, evs))
    decreases |evs|
  {
    if |evs| > 0 {
      StepPreservesInv(w, evs[0]);
      RunPreservesInv(Step(w, evs[0]), evs[1..]);
    }
  }

  /** No two in-flight loads share an identity, from construction onward. */
  lemma AtMostOneLoadPerIdentity<I>(opts: seq<AnselConfig>, evs: seq<Event<I>>, k: nat, j: nat)
    requires var w := Run(Init(NewAnsel<I>(opts)), evs);
      InFlight(w, k) && InFlight(w, j) && w.tasks[k].u.id == w.tasks[j].u.id
    ensures k == j
  {
    InitInv(NewAnsel<I>(opts));
    RunPreservesInv(Init(NewAnsel<I>(opts)), evs);
  }

  // ---------------------------------------------------------------------
  // Resolution.

  /** A successful resolve finds its identity bound (the lookup at ansel.go:91
      always succeeds), delivers exactly once, to the target bound at resolve
      time, a resource named after the task's own source; it drops that one
      binding and retires the task. */
  lemma ResolveDeliversOnce<I>(w: World<I>, k: nat, data: Bytes)
    requires Inv(w) && InFlight(w, k)
    ensures var u := w.tasks[k].u;
      var w' := Step(w, ResolveTask(k, Loaded(data)));
      && u.id in w.a.pending
      && w'.log == w.log + [Delivery(w.a.pending[u.id], MakeResource(u.source, w.a.config.loadedCallback, data))]
      && w'.a.pending == w.a.pending - {u.id}
      && w'.a.cache == w.a.cache[u.source := MakeResource(u.source, w.a.config.loadedCallback, data)]
      && k !in w'.tasks
  {
  }

  /** The latest rebind wins: when a second request for an identity with a
      load in flight binds before that load resolves, the result goes to the
      second request's target, yet it is the resource of the first request's
      source, and only one loader call is made (ansel.go:75-80, ansel.go:91-94). */
  lemma RebindRedirectsDelivery<I>(w: World<I>, k: nat, j: nat, data: Bytes)
    requires Inv(w) && InFlight(w, k) && InPhase(w, j, Missed)
    requires w.tasks[j].u.id == w.tasks[k].u.id
    ensures var w2 := Step(Step(w, BindTask(j)), ResolveTask(k, Loaded(data)));
      var src := w.tasks[k].u.source;
      && w2.log == w.log + [Delivery(w.tasks[j].u.target, MakeResource(src, w.a.config.loadedCallback, data))]
      && w2.loads == w.loads
  {
  }

  // ---------------------------------------------------------------------
  // Failure strands the identity.

  /** `id` is bound yet no load for it is in flight: nothing will ever clear
      the binding. */
  ghost predicate Stranded<I>(w: World<I>, id: I) {
    id in w.a.pending && forall k :: InFlight(w, k) ==> w.tasks[k].u.id != id
  }

  /** A failed resolve caches nothing, delivers nothing and keeps the binding,
      which is left with no load in flight (ansel.go:84, ansel.go:97-99). */
  lemma FailureStrands<I>(w: World<I>, k: nat, err: string)
    requires Inv(w) && InFlight(w, k)
    ensures var w' := Step(w, ResolveTask(k, LoadFailed(err)));
      && w'.a == w.a && w'.log == w.log
      && Stranded(w', w.tasks[k].u.id)
  {
  }

  /** A stranded identity stays stranded and never calls the loader again. */
  lemma StrandedStep<I>(w: World<I>, id: I, e: Event<I>)
    requires Stranded(w, id)
    ensures Stranded(Step(w, e), id)
    ensures forall i :: |w.loads| <= i < |Step(w, e).loads| ==> Step(w, e).loads[i].id != id
  {
  }

  /** After a failure, every later request for that identity that misses the
      cache only rebinds: under any schedule the loader is never called for
      it again and the binding is never cleared. */
  lemma {:induction false} StrandedForever<I>(w: World<I>, id: I, evs: seq<Event<I>>)
    requires Stranded(w, id)
    ensures Stranded(Run(w, evs), id)
    ensures forall i :: |w.loads| <= i < |Run(w, evs).loads| ==> Run(w, evs).loads[i].id != id
    decreases |evs|
  {
    if |evs| > 0 {
      var w1 := Step(w, evs[0]);
      StrandedStep(w, id, evs[0]);
      StrandedForever(w1, id, evs[1..]);
    }
  }

  /** Running a schedule passes through the states each event leads to. */
  lemma {:induction false} RunSteps<I>(w: World<I>, evs: seq<Event<I>>, ws: seq<World<I>>)
    requires |ws| == |evs|
    requires |evs| > 0 ==> ws[0] == Step(w, evs[0])
    requires forall i :: 0 < i < |evs| ==> ws[i] == Step(ws[i - 1], evs[i])
    ensures Run(w, evs) == if |evs| == 0 then w else ws[|evs| - 1]
    decreases |evs|
  {
    if |evs| > 0 {
      forall i | 0 < i < |evs| - 1
        ensures ws[1..][i] == Step(ws[1..][i - 1], evs[1..][i])
      {
        assert ws[i + 1] == Step(ws[i], evs[i + 1]);
      }
      RunSteps(ws[0], evs[1..], ws[1..]);
    }
  }

  // ---------------------------------------------------------------------
  // Cache hits.

  /** A queued request whose source is cached is served from the cache to its
      own target, with no loader call and no change to the shared maps. */
  lemma CachedSourceIsServed<I>(w: World<I>, k: nat)
    requires InPhase(w, k, Queued) && w.tasks[k].u.source in w.a.cache
    ensures var u := w.tasks[k].u;
      var w' := Step(w, CheckHit(k));
      && w'.log == w.log + [Delivery(u.target, w.a.cache[u.source])]
      && w'.a == w.a && w'.loads == w.loads && k !in w'.tasks
  {
  }

  /** Once a source is cached it stays cached, so under any schedule a later
      request for it is served from the cache to its own target without a
      loader call. */
  lemma LaterRequestHits<I>(w: World<I>, evs: seq<Event<I>>, u: Unit<I>)
    requires u.source in w.a.cache
    ensures var w1 := Run(w, evs);
      var w2 := Step(Step(w1, Load(u)), CheckHit(w1.next));
      && w2.loads == w1.loads
      && w2.log == w1.log + [Delivery(u.target, w1.a.cache[u.source])]
  {
  }

  // ---------------------------------------------------------------------
  // Enqueueing.

  /** `Load` hands the request over under a fresh ticket and touches nothing
      else: no cache or binding change, no delivery, no loader call (ansel.go:53-55). */
  lemma LoadEnqueues<I>(w: World<I>, u: Unit<I>)
    requires Inv(w)
    ensures var w' := Step(w, Load(u));
      && w.next !in w.tasks
      && w'.tasks == w.tasks[w.next := Task(u, Queued)]
      && w'.next > w.next
      && w'.a == w.a && w'.log == w.log && w'.loads == w.loads
  {
  }
}
