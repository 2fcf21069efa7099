/** Two requests for one identity issued back to back, then a third for
    another identity after the load resolved, on a pool of two workers and on
    a pool of one. */
module Scenario {
  import opened Resources
  import opened Configuration
  import opened Engine
  import opened Interleaving

  const U1: Unit<string> := Unit("A", "url1", 1)
  const U2: Unit<string> := Unit("A", "url1", 2)
  const U3: Unit<string> := Unit("B", "url1", 3)

  function Schedule(payload: Bytes): seq<Event<string>> {
    [ Load(U1), Load(U2), CheckHit(0), CheckHit(1), BindTask(0), BindTask(1),
      ResolveTask(0, Loaded(payload)), Load(U3), CheckHit(2) ]
  }

  /** On two workers: the two requests for "A" are queued, both miss, the first binds and
      calls the loader, the second only rebinds the identity to target 2. */
  lemma CoalescePhase(w0: World<string>)
    requires w0 == Init(NewAnsel<string>([SetWorkerCount(2)]))
    ensures var w := Step(Step(Step(Step(Step(Step(w0, Load(U1)), Load(U2)), CheckHit(0)), CheckHit(1)), BindTask(0)), BindTask(1));
      && w.tasks == map[0 := Task(U1, Fetching)] && w.next == 2
      && w.a.pending == map["A" := 2] && w.a.cache == map[]
      && w.log == [] && w.loads == [U1] && w.a.config == w0.a.config
  {
  }

  /** The load resolves: the cache gets "url1" and target 2, the latest bound
      to "A", receives it; then "B" is queued and served from the cache. */
  lemma DeliverPhase(w6: World<string>, payload: Bytes)
    requires w6.tasks == map[0 := Task(U1, Fetching)] && w6.next == 2
    requires w6.a.pending == map["A" := 2] && w6.a.cache == map[] && w6.log == []
    requires w6.a.config.loadedCallback == None
    ensures var w := Step(Step(Step(w6, ResolveTask(0, Loaded(payload))), Load(U3)), CheckHit(2));
      var res := StaticResource("url1", payload);
      && w.tasks == map[] && w.a.pending == map[] && w.a.cache == map["url1" := res]
      && w.log == [Delivery(2, res), Delivery(3, res)] && w.loads == w6.loads
  {
  }

  /** Two workers, one per request for "A" (targets 1 and 2): both miss before
      the load for "url1" resolves, then a request for "B" from target 3
      follows. The loader is called once, target 1 receives nothing, target 2
      receives the loaded resource, and target 3 is served from the cache.
      The overlap needs a second worker: one worker runs a whole `doLoad`,
      loader call included, before it takes the next request off the channel
      (ansel.go:57-62), which is the schedule of `OneWorkerServesEach`. */
  lemma CoalescedThenCached(payload: Bytes)
    ensures var w := Run(Init(NewAnsel<string>([SetWorkerCount(2)])), Schedule(payload));
      && w.loads == [U1]
      && w.log == [Delivery(2, StaticResource("url1", payload)), Delivery(3, StaticResource("url1", payload))]
      && w.a.cache == map["url1" := StaticResource("url1", payload)]
      && w.a.pending == map[] && w.tasks == map[]
  {
    var w0 := Init(NewAnsel<string>([SetWorkerCount(2)]));
    var evs := Schedule(payload);
    var w1 := Step(w0, evs[0]);
    var w2 := Step(w1, evs[1]);
    var w3 := Step(w2, evs[2]);
    var w4 := Step(w3, evs[3]);
    var w5 := Step(w4, evs[4]);
    var w6 := Step(w5, evs[5]);
    var w7 := Step(w6, evs[6]);
    var w8 := Step(w7, evs[7]);
    var w9 := Step(w8, evs[8]);
    RunSteps(w0, evs, [w1, w2, w3, w4, w5, w6, w7, w8, w9]);
    CoalescePhase(w0);
    DeliverPhase(w6, payload);
  }

  /** The order a single worker imposes: each `doLoad` runs to completion
      before the next request is taken. */
  function OneWorkerSchedule(payload: Bytes): seq<Event<string>> {
    [ Load(U1), Load(U2), CheckHit(0), BindTask(0), ResolveTask(0, Loaded(payload)),
      CheckHit(1), Load(U3), CheckHit(2) ]
  }

  lemma OneWorkerFirstLoad(w0: World<string>, payload: Bytes)
    requires w0 == Init(NewAnsel<string>([SetWorkerCount(1)]))
    ensures var w := Step(Step(Step(Step(w0, Load(U1)), Load(U2)), CheckHit(0)), BindTask(0));
      var w' := Step(w, ResolveTask(0, Loaded(payload)));
      var res := StaticResource("url1", payload);
      && w'.tasks == map[1 := Task(U2, Queued)] && w'.next == 2
      && w'.a.pending == map[] && w'.a.cache == map["url1" := res]
      && w'.log == [Delivery(1, res)] && w'.loads == [U1]
  {
  }

  lemma OneWorkerHits(w5: World<string>, payload: Bytes)
    requires var res := StaticResource("url1", payload);
      && w5.tasks == map[1 := Task(U2, Queued)] && w5.next == 2
      && w5.a.pending == map[] && w5.a.cache == map["url1" := res]
      && w5.log == [Delivery(1, res)]
    ensures var w := Step(Step(Step(w5, CheckHit(1)), Load(U3)), CheckHit(2));
      var res := StaticResource("url1", payload);
      && w.tasks == map[] && w.a == w5.a && w.loads == w5.loads
      && w.log == [Delivery(1, res), Delivery(2, res), Delivery(3, res)]
  {
  }

  /** The same three requests on one worker: the first `doLoad` loads "url1"
      and delivers to target 1, the second request for "A" is then a cache hit
      for target 2, and so is the request for "B" from target 3; the loader
      is called once. */
  lemma OneWorkerServesEach(payload: Bytes)
    ensures var w := Run(Init(NewAnsel<string>([SetWorkerCount(1)])), OneWorkerSchedule(payload));
      var res := StaticResource("url1", payload);
      && w.loads == [U1]
      && w.log == [Delivery(1, res), Delivery(2, res), Delivery(3, res)]
      && w.a.cache == map["url1" := res]
      && w.a.pending == map[] && w.tasks == map[]
  {
    var w0 := Init(NewAnsel<string>([SetWorkerCount(1)]));
    var evs := OneWorkerSchedule(payload);
    var w1 := Step(w0, evs[0]);
    var w2 := Step(w1, evs[1]);
    var w3 := Step(w2, evs[2]);
    var w4 := Step(w3, evs[3]);
    var w5 := Step(w4, evs[4]);
    var w6 := Step(w5, evs[5]);
    var w7 := Step(w6, evs[6]);
    var w8 := Step(w7, evs[7]);
    RunSteps(w0, evs, [w1, w2, w3, w4, w5, w6, w7, w8]);
    OneWorkerFirstLoad(w0, payload);
    OneWorkerHits(w5, payload);
  }

  /** Two workers again, but the second request for "A" takes the write lock
      only after the first load resolved: it missed the cache before the
      source was stored, finds no binding (the resolve dropped it) and calls
      the loader a second time for a source that is by then cached
      (ansel.go:73-84, ansel.go:90-94). */
  function ReloadSchedule(p: Bytes, q: Bytes): seq<Event<string>> {
    [ Load(U1), Load(U2), CheckHit(0), CheckHit(1), BindTask(0),
      ResolveTask(0, Loaded(p)), BindTask(1), ResolveTask(1, Loaded(q)) ]
  }

  lemma ReloadBothMiss(w0: World<string>, p: Bytes)
    requires w0 == Init(NewAnsel<string>([SetWorkerCount(2)]))
    ensures var w := Step(Step(Step(Step(Step(Step(w0, Load(U1)), Load(U2)), CheckHit(0)), CheckHit(1)), BindTask(0)),
        ResolveTask(0, Loaded(p)));
      && w.tasks == map[1 := Task(U2, Missed)]
      && w.a.pending == map[] && w.a.cache == map["url1" := StaticResource("url1", p)]
      && w.log == [Delivery(1, StaticResource("url1", p))] && w.loads == [U1]
      && w.a.config.loadedCallback == None
  {
  }

  lemma ReloadSecondLoad(w6: World<string>, p: Bytes, q: Bytes)
    requires w6.tasks == map[1 := Task(U2, Missed)] && w6.a.pending == map[]
    requires w6.log == [Delivery(1, StaticResource("url1", p))] && w6.loads == [U1]
    requires w6.a.config.loadedCallback == None
    ensures var w := Step(Step(w6, BindTask(1)), ResolveTask(1, Loaded(q)));
      && w.loads == [U1, U2]
      && w.log == [Delivery(1, StaticResource("url1", p)), Delivery(2, StaticResource("url1", q))]
      && w.a.cache["url1"] == StaticResource("url1", q)
      && w.a.pending == map[] && w.tasks == map[]
  {
  }

  /** Coalescing covers only binds made while a load for the identity is in
      flight: a request that missed the cache before that load resolved loads
      the source again, and its result overwrites the cached entry. */
  lemma MissedRequestReloads(p: Bytes, q: Bytes)
    ensures var w := Run(Init(NewAnsel<string>([SetWorkerCount(2)])), ReloadSchedule(p, q));
      && w.loads == [U1, U2]
      && w.log == [Delivery(1, StaticResource("url1", p)), Delivery(2, StaticResource("url1", q))]
      && w.a.cache == map["url1" := StaticResource("url1", q)]
      && w.a.pending == map[] && w.tasks == map[]
  {
    var w0 := Init(NewAnsel<string>([SetWorkerCount(2)]));
    var evs := ReloadSchedule(p, q);
    var w1 := Step(w0, evs[0]);
    var w2 := Step(w1, evs[1]);
    var w3 := Step(w2, evs[2]);
    var w4 := Step(w3, evs[3]);
    var w5 := Step(w4, evs[4]);
    var w6 := Step(w5, evs[5]);
    var w7 := Step(w6, evs[6]);
    var w8 := Step(w7, evs[7]);
    RunSteps(w0, evs, [w1, w2, w3, w4, w5, w6, w7, w8]);
    ReloadBothMiss(w0, p);
    ReloadSecondLoad(w6, p, q);
  }
}
