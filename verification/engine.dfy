/**
 The request-resolution state machine of `Ansel.doLoad` (ansel.go:66-100).

 A request is split into the three sections that run under the lock:
 the hit check (read lock), the bind, and the resolve after the loader has
 returned. Each section is a pure function from the cache state before it to
 the state after it and the deliveries it makes. `DoLoad` runs the three in a
 row, as a single worker does when nothing else interleaves.
 */
module Engine {
  import opened Resources
  import opened Configuration

  /** A `ResourceSetter` the result is delivered to, known only by identity. */
  type Target = nat

  /** One request as it sits in the work channel: the caller's identity, the
      source to load and the target to deliver to. */
  datatype Unit<I> = Unit(id: I, source: string, target: Target)

  /** One `SetResource` call. */
  datatype Delivery = Delivery(target: Target, resource: Resource)

  /** The shared state: the cache by source, the pending bindings by identity,
      and the configuration fixed at construction. */
  datatype Ansel<I(==)> = Ansel(cache: map<string, Resource>, pending: map<I, Target>, config: Config)

  /** Construction: empty cache and bindings, defaults overridden by the
      options in the order given (ansel.go:31-42). */
  function NewAnsel<I(==)>(opts: seq<AnselConfig>): Ansel<I> {
    Ansel(map[], map[], ApplyAll(Defaults(), opts))
  }

  /** A new instance has nothing cached and nothing bound; a field no option
      sets keeps its default (HTTP loader, no callback, ten workers); a
      repeated option is decided by its last occurrence. */
  lemma NewAnselSettings<I>(opts: seq<AnselConfig>)
    ensures NewAnsel<I>(opts).cache == map[] && NewAnsel<I>(opts).pending == map[]
    ensures NewAnsel<I>(opts).config.loader == LastLoader(opts).GetOr(LoadHTTP)
    ensures NewAnsel<I>(opts).config.loadedCallback == LastCallback(opts).GetOr(None)
    ensures NewAnsel<I>(opts).config.workerCount == LastWorkerCount(opts).GetOr(DefaultWorkerCount)
  {
    LaterOptionWins(Defaults(), opts);
  }

  // ---------------------------------------------------------------------
  // Section 1: the hit check, under the read lock.

  datatype Probe = Hit(delivery: Delivery) | Miss

  /** A cached source is delivered at once to the request's own target, whatever
      target is bound to the request's identity (ansel.go:67-73). */
  function HitCheck<I(==)>(a: Ansel<I>, u: Unit<I>): (p: Probe)
    ensures p.Hit? <==> u.source in a.cache
    ensures p.Hit? ==> p.delivery.target == u.target && p.delivery.resource == a.cache[u.source]
  {
    if u.source in a.cache then Hit(Delivery(u.target, a.cache[u.source])) else Miss
  }

  // ---------------------------------------------------------------------
  // Section 2: the bind, under the write lock.

  datatype Bound<I(==)> = Bound(after: Ansel<I>, startFetch: bool)

  /** The identity ends up bound to the request's target whether or not it was
      bound before; only when it was not does this request go on to load
      (ansel.go:75-82). The cache, the configuration and every other binding
      are left as they were. */
  function Bind<I(==)>(a: Ansel<I>, u: Unit<I>): (b: Bound<I>)
    ensures b.startFetch <==> u.id !in a.pending
    ensures u.id in b.after.pending && b.after.pending[u.id] == u.target
    ensures b.after.pending - {u.id} == a.pending - {u.id}
    ensures b.after.cache == a.cache && b.after.config == a.config
  {
    if u.id in a.pending then
      Bound(a.(pending := a.pending[u.id := u.target]), false)
    else
      Bound(a.(pending := a.pending[u.id := u.target]), true)
  }

  // ---------------------------------------------------------------------
  // Section 3: the resolve, under the write lock, after the loader returned.

  datatype Resolution<I(==)> = Resolution(after: Ansel<I>, delivered: seq<Delivery>)

  /** On success the (possibly transformed) payload is cached under the
      request's source, overwriting any earlier entry and leaving every other
      source alone; it is delivered once to whatever target the identity is
      bound to NOW, and that binding is dropped while other identities keep
      theirs. On failure nothing changes and nothing is delivered: in
      particular the binding stays (ansel.go:84-99). */
  function Resolve<I(==)>(a: Ansel<I>, u: Unit<I>, outcome: Outcome): (r: Resolution<I>)
    ensures r.after.config == a.config
    ensures outcome.LoadFailed? ==> r.after == a && r.delivered == []
    ensures outcome.Loaded? ==>
      && u.source in r.after.cache
      && r.after.cache[u.source] == MakeResource(u.source, a.config.loadedCallback, outcome.data)
      && r.after.cache - {u.source} == a.cache - {u.source}
      && u.id !in r.after.pending
      && r.after.pending == a.pending - {u.id}
      && |r.delivered| == (if u.id in a.pending then 1 else 0)
      && (forall d :: d in r.delivered ==>
            d.target == a.pending[u.id] && d.resource == r.after.cache[u.source])
  {
    match outcome
    case LoadFailed(_) => Resolution(a, [])
    case Loaded(data) =>
      var res := MakeResource(u.source, a.config.loadedCallback, data);
      var delivered := if u.id in a.pending then [Delivery(a.pending[u.id], res)] else [];
      Resolution(Ansel(a.cache[u.source := res], a.pending - {u.id}, a.config), delivered)
  }

  // ---------------------------------------------------------------------
  // The three sections in a row.

  /** What one uninterrupted `doLoad` leaves behind, and whether it called the loader. */
  datatype LoadResult<I(==)> = LoadResult(after: Ansel<I>, delivered: seq<Delivery>, fetched: bool)

  /** `doLoad` when no other request interleaves; `outcome` is what the loader
      returns if it is called.
      - A hit delivers the cached resource to the request's own target and
        changes nothing: no load, cache and bindings as they were, even when
        the identity is bound to a different target (ansel.go:67-72).
      - A miss for an identity already bound only moves the binding to the new
        target: no load, no delivery, cache untouched (ansel.go:75-80).
      - A miss for an unbound identity loads. A successful load ends with the
        result cached and delivered to the request's own target and the
        bindings back as they were; a failed one ends with nothing cached,
        nothing delivered and the new binding left in place (ansel.go:81-99).
      No path removes a cached source or alters the configuration. */
  function DoLoad<I(==)>(a: Ansel<I>, u: Unit<I>, outcome: Outcome): (r: LoadResult<I>)
    ensures u.source in a.cache ==>
      r == LoadResult(a, [Delivery(u.target, a.cache[u.source])], false)
    ensures u.source !in a.cache && u.id in a.pending ==>
      r == LoadResult(a.(pending := a.pending[u.id := u.target]), [], false)
    ensures u.source !in a.cache && u.id !in a.pending ==> r.fetched
    ensures u.source !in a.cache && u.id !in a.pending && outcome.Loaded? ==>
      var res := MakeResource(u.source, a.config.loadedCallback, outcome.data);
      r == LoadResult(a.(cache := a.cache[u.source := res]), [Delivery(u.target, res)], true)
    ensures u.source !in a.cache && u.id !in a.pending && outcome.LoadFailed? ==>
      r == LoadResult(a.(pending := a.pending[u.id := u.target]), [], true)
    ensures a.cache.Keys <= r.after.cache.Keys && r.after.config == a.config
  {
    match HitCheck(a, u)
    case Hit(d) => LoadResult(a, [d], false)
    case Miss =>
      var b := Bind(a, u);
      if !b.startFetch then LoadResult(b.after, [], false)
      else
        var r := Resolve(b.after, u, outcome);
        assert outcome.Loaded? ==> b.after.pending - {u.id} == a.pending;
        LoadResult(r.after, r.delivered, true)
  }
}
