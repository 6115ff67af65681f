/**
 * The configuration loader `loadConfig`: a process-wide cache of the SendGrid
 * credentials that is either unloaded (`globalConfig == nil`) or loaded, and
 * once loaded stays so. The App Engine datastore is a map from key to record;
 * whether its Get or Put fails on a given call is a parameter.
 */
module Configuration {
  import opened Wrappers

  /** The credentials record, `Config` in the source. */
  datatype Config = Config(apiUser: string, apiPassword: string)

  /** The fixed datastore key of the record (kind and name are both this string). */
  const ConfigKey: string := "SendGridConfig"

  /** The sentinel value of a record nobody has filled in yet. */
  const Placeholder: string := "default"

  /** The stub record written when the record cannot be fetched. */
  const StubConfig: Config := Config(Placeholder, Placeholder)

  /** A record with neither field empty nor still the placeholder. */
  predicate Populated(c: Config)
  {
    c.apiUser != "" && c.apiUser != Placeholder && c.apiPassword != "" && c.apiPassword != Placeholder
  }

  /** What `loadConfig` returns: nil, or `ErrConfig`. */
  datatype LoadStatus = Loaded | ErrConfig

  /** One datastore call made by the loader. */
  datatype StoreOp = Get(key: string) | Put(key: string, record: Config)

  /** How the datastore behaves on one call: whether Get or Put returns an error of its own. */
  datatype StoreIo = StoreIo(getFails: bool, putFails: bool)

  /** The cache and the datastore. */
  datatype LoaderState = LoaderState(cached: Option<Config>, store: map<string, Config>)

  /** One call to the loader: what it returns, the state after it, the datastore calls it made. */
  datatype LoadStep = LoadStep(status: LoadStatus, state: LoaderState, ops: seq<StoreOp>)

  /** Several calls in a row: each call's status, the final state, all datastore calls. */
  datatype LoadRun = LoadRun(statuses: seq<LoadStatus>, state: LoaderState, ops: seq<StoreOp>)

  /** `loadConfig`, one call, as a function of the state before it. */
  function Load(s: LoaderState, io: StoreIo): (step: LoadStep)
    // a loaded cache answers at once, with no datastore call
    ensures s.cached.Some? ==> step == LoadStep(Loaded, s, [])
    // success means a cached record, and only a populated record read from the fixed key is ever cached
    ensures step.status == Loaded <==> step.state.cached.Some?
    ensures s.cached.None? && step.state.cached.Some? ==>
      && ConfigKey in s.store && !io.getFails
      && step.state.cached == Some(s.store[ConfigKey]) && Populated(s.store[ConfigKey])
    // a failed call leaves the cache unloaded, so the next call fetches again
    ensures step.status == ErrConfig ==> step.state.cached == None
    // the only write is the stub, under the fixed key, and only after a failed fetch
    ensures step.state.store == s.store || step.state.store == s.store[ConfigKey := StubConfig]
    ensures step.state.store != s.store ==> step.status == ErrConfig && step.ops == [Get(ConfigKey), Put(ConfigKey, StubConfig)]
    ensures step.state.store != s.store ==> s.cached.None? && (io.getFails || ConfigKey !in s.store)
    // a failed fetch always attempts the stub Put, whether or not the Put succeeds
    ensures s.cached.None? && (io.getFails || ConfigKey !in s.store) ==>
      step.status == ErrConfig && step.ops == [Get(ConfigKey), Put(ConfigKey, StubConfig)]
    // a record that was read but refused is neither cached nor rewritten: one Get and nothing else
    ensures s.cached.None? && !io.getFails && ConfigKey in s.store && !Populated(s.store[ConfigKey]) ==>
      step == LoadStep(ErrConfig, s, [Get(ConfigKey)])
  {
    if s.cached.Some? then
      LoadStep(Loaded, s, [])
    else if io.getFails || ConfigKey !in s.store then
      var store := if io.putFails then s.store else s.store[ConfigKey := StubConfig];
      LoadStep(ErrConfig, s.(store := store), [Get(ConfigKey), Put(ConfigKey, StubConfig)])
    else if !Populated(s.store[ConfigKey]) then
      LoadStep(ErrConfig, s, [Get(ConfigKey)])
    else
      LoadStep(Loaded, s.(cached := Some(s.store[ConfigKey])), [Get(ConfigKey)])
  }

  /**
   * Successive calls to `loadConfig`, the i-th meeting datastore behaviour
   * `ios[i]`. Its contract only fixes the number of statuses; what a run does
   * is stated by `LoadedIsTerminal` and `FetchOnce`.
   */
  function LoadAll(s: LoaderState, ios: seq<StoreIo>): (run: LoadRun)
    ensures |run.statuses| == |ios|
    decreases |ios|
  {
    if ios == [] then LoadRun([], s, [])
    else
      var step := Load(s, ios[0]);
      var rest := LoadAll(step.state, ios[1..]);
      LoadRun([step.status] + rest.statuses, rest.state, step.ops + rest.ops)
  }

  /** Loaded is terminal: every later call succeeds, nothing changes and the datastore is never touched. */
  lemma {:induction false} LoadedIsTerminal(s: LoaderState, ios: seq<StoreIo>)
    requires s.cached.Some?
    ensures LoadAll(s, ios).state == s
    ensures LoadAll(s, ios).ops == []
    ensures forall i :: 0 <= i < |ios| ==> LoadAll(s, ios).statuses[i] == Loaded
    decreases |ios|
  {
    if ios != [] {
      LoadedIsTerminal(s, ios[1..]);
    }
  }

  /**
   * Repeated calls perform exactly one fetch: from an unloaded cache and a
   * populated record, any number of calls whose first fetch succeeds make one
   * Get and nothing else, all succeed, and the record ends up cached.
   */
  lemma FetchOnce(s: LoaderState, ios: seq<StoreIo>)
    requires s.cached.None? && ConfigKey in s.store && Populated(s.store[ConfigKey])
    requires |ios| > 0 && !ios[0].getFails
    ensures LoadAll(s, ios).ops == [Get(ConfigKey)]
    ensures LoadAll(s, ios).state == s.(cached := Some(s.store[ConfigKey]))
    ensures forall i :: 0 <= i < |ios| ==> LoadAll(s, ios).statuses[i] == Loaded
  {
    var step := Load(s, ios[0]);
    LoadedIsTerminal(step.state, ios[1..]);
  }

  /**
   * A missing record is replaced by the stub and the call fails; once an
   * operator has filled the record in, the next call succeeds and caches it.
   */
  lemma StubThenPopulated(store: map<string, Config>, filled: Config, io1: StoreIo, io2: StoreIo)
    requires ConfigKey !in store && !io1.getFails && !io1.putFails
    requires Populated(filled) && !io2.getFails
    ensures var first := Load(LoaderState(None, store), io1);
      && first.status == ErrConfig
      && first.state == LoaderState(None, store[ConfigKey := StubConfig])
      && var second := Load(first.state.(store := first.state.store[ConfigKey := filled]), io2);
         second.status == Loaded && second.state.cached == Some(filled)
  {
  }

  /**
   * A record read successfully but with a field empty or still the
   * placeholder (the stub among them) is refused: the call fails after one
   * Get, caches nothing and leaves the datastore as it was.
   */
  lemma RefusedRecordLeavesStore(s: LoaderState, io: StoreIo)
    requires s.cached.None? && !io.getFails && ConfigKey in s.store
    requires s.store[ConfigKey].apiUser in {"", Placeholder} || s.store[ConfigKey].apiPassword in {"", Placeholder}
    ensures Load(s, io) == LoadStep(ErrConfig, s, [Get(ConfigKey)])
  {
  }

  /**
   * Any Get error takes the stub branch, not only a missing record: a
   * populated record is overwritten by the stub when the fetch fails and the
   * Put succeeds. The call still returns `ErrConfig` when the Put fails.
   */
  lemma GetErrorWritesStub(s: LoaderState, io: StoreIo)
    requires s.cached.None? && io.getFails
    ensures Load(s, io).status == ErrConfig
    ensures Load(s, io).state.store == if io.putFails then s.store else s.store[ConfigKey := StubConfig]
  {
  }

  /** The cache and the datastore as the Go package sees them, with a log of datastore calls. */
  class ConfigLoader {
    var cached: Option<Config>
    var store: map<string, Config>
    var ops: seq<StoreOp>

    /** A cached record is always a populated one. */
    ghost predicate Valid()
      reads this
    {
      cached.Some? ==> Populated(cached.value)
    }

    function State(): LoaderState
      reads this
    {
      LoaderState(cached, store)
    }

    /** Process start: nothing cached, the datastore as it is. */
    constructor (store: map<string, Config>)
      ensures Valid() && cached == None && this.store == store && ops == []
    {
      cached := None;
      this.store := store;
      ops := [];
    }

    /** `loadConfig`, run as one atomic step. */
    method LoadConfig(io: StoreIo) returns (status: LoadStatus)
      requires Valid()
      modifies this
      ensures Valid()
      ensures var step := Load(old(State()), io);
        status == step.status && State() == step.state && ops == old(ops) + step.ops
    {
      if cached.None? {
        ops := ops + [Get(ConfigKey)];
        if io.getFails || ConfigKey !in store {
          ops := ops + [Put(ConfigKey, StubConfig)];
          if !io.putFails {
            store := store[ConfigKey := StubConfig];
          }
          return ErrConfig;
        }
        var temp := store[ConfigKey];
        if temp.apiPassword == Placeholder || temp.apiUser == Placeholder
           || temp.apiPassword == "" || temp.apiUser == "" {
          return ErrConfig;
        }
        cached := Some(temp);
      }
      return Loaded;
    }
  }
}
