/**
 Construction of an Ansel instance: defaults first, then the functional
 options folded over in the order they are given (ansel.go:31-51).
 */
module Configuration {
  import opened Resources

  /** The loader a configuration names. It is never called by the model: the
      outcome of a load is an input of the resolve step instead. */
  datatype Loader = LoadHTTP | CustomLoader(handle: nat)

  datatype Config = Config(loader: Loader, loadedCallback: Option<Callback>, workerCount: int)

  /** The three options the package offers (ansel.go:102-118). */
  datatype AnselConfig =
    | SetLoader(loader: Loader)
    | SetLoadedCallback(callback: Option<Callback>)
    | SetWorkerCount(count: int)

  const DefaultWorkerCount: int := 10

  /** The configuration before any option runs: the HTTP loader, no callback,
      ten workers (ansel.go:32-38). */
  function Defaults(): Config {
    Config(LoadHTTP, None, DefaultWorkerCount)
  }

  /** One option overwrites exactly the field it is about. */
  function Apply(c: Config, opt: AnselConfig): (r: Config)
    ensures opt.SetLoader? ==> r.loader == opt.loader
    ensures !opt.SetLoader? ==> r.loader == c.loader
    ensures opt.SetLoadedCallback? ==> r.loadedCallback == opt.callback
    ensures !opt.SetLoadedCallback? ==> r.loadedCallback == c.loadedCallback
    ensures opt.SetWorkerCount? ==> r.workerCount == opt.count
    ensures !opt.SetWorkerCount? ==> r.workerCount == c.workerCount
  {
    match opt
    case SetLoader(l) => c.(loader := l)
    case SetLoadedCallback(cb) => c.(loadedCallback := cb)
    case SetWorkerCount(n) => c.(workerCount := n)
  }

  /** The options applied left to right, as the range loop at ansel.go:40-42 does. */
  function ApplyAll(c: Config, opts: seq<AnselConfig>): Config
    decreases |opts|
  {
    if |opts| == 0 then c else ApplyAll(Apply(c, opts[0]), opts[1..])
  }

  // Independent reference definitions: the last option of each kind, found
  // by scanning from the end of the list.

  function LastLoader(opts: seq<AnselConfig>): Option<Loader>
    decreases |opts|
  {
    if |opts| == 0 then None
    else if opts[|opts| - 1].SetLoader? then Some(opts[|opts| - 1].loader)
    else LastLoader(opts[..|opts| - 1])
  }

  function LastCallback(opts: seq<AnselConfig>): Option<Option<Callback>>
    decreases |opts|
  {
    if |opts| == 0 then None
    else if opts[|opts| - 1].SetLoadedCallback? then Some(opts[|opts| - 1].callback)
    else LastCallback(opts[..|opts| - 1])
  }

  function LastWorkerCount(opts: seq<AnselConfig>): Option<int>
    decreases |opts|
  {
    if |opts| == 0 then None
    else if opts[|opts| - 1].SetWorkerCount? then Some(opts[|opts| - 1].count)
    else LastWorkerCount(opts[..|opts| - 1])
  }

  /** Applying one more option at the end is applying it to the result. */
  lemma {:induction false} ApplyAllSnoc(c: Config, opts: seq<AnselConfig>, opt: AnselConfig)
    ensures ApplyAll(c, opts + [opt]) == Apply(ApplyAll(c, opts), opt)
    decreases |opts|
  {
    if |opts| == 0 {
      assert opts + [opt] == [opt];
      assert ApplyAll(c, [opt]) == ApplyAll(Apply(c, opt), []);
    } else {
      assert (opts + [opt])[1..] == opts[1..] + [opt];
      ApplyAllSnoc(Apply(c, opts[0]), opts[1..], opt);
    }
  }

  /** When an option is repeated the later one wins; a field no option
      mentions keeps the starting value. */
  lemma {:induction false} LaterOptionWins(c: Config, opts: seq<AnselConfig>)
    ensures ApplyAll(c, opts).loader == LastLoader(opts).GetOr(c.loader)
    ensures ApplyAll(c, opts).loadedCallback == LastCallback(opts).GetOr(c.loadedCallback)
    ensures ApplyAll(c, opts).workerCount == LastWorkerCount(opts).GetOr(c.workerCount)
    decreases |opts|
  {
    if |opts| > 0 {
      var init := opts[..|opts| - 1];
      var last := opts[|opts| - 1];
      assert opts == init + [last];
      ApplyAllSnoc(c, init, last);
      LaterOptionWins(c, init);
    }
  }

  /** The worker-start loop at ansel.go:46-48: one goroutine per iteration,
      none at all when the configured count is zero or negative. The count
      bounds nothing in the interleaving model, which admits the schedules of
      a pool of any size. */
  method StartWorkers(workerCount: int) returns (started: nat)
    ensures workerCount <= 0 ==> started == 0
    ensures workerCount > 0 ==> started == workerCount
  {
    started := 0;
    var w := 0;
    while w < workerCount
      invariant 0 <= w
      invariant w == 0 || w <= workerCount
      invariant started == w
    {
      started := started + 1;
      w := w + 1;
    }
  }
}
