/** The availability cache, of which `src/typo.py` and `src/utils.py` each hold
    one: a map from
    fully qualified domain to the last result the registrar gave for it, consulted
    before the registrar is asked, written on every successful answer, saved to the
    cache file when caching is switched on, and followed by a one-second pause
    after every successful request. */
module Availability {

  import opened Values

  /** The two global switches the command line sets once per run. */
  datatype Config = Config(cached: bool, checkAvailability: bool)

  /** A value snapshot of the cache object: its entries, the snapshot last written
      to the cache file, and how many registrar requests, saves and pauses happened. */
  datatype Store = Store(entries: map<string, Record>, saved: map<string, Record>, calls: nat, saves: nat, sleeps: nat)

  /** How a lookup ended. `Hit` and `Fetched` return the very dictionary that the
      cache holds under the domain; `Unchecked` returns a fresh one that is not
      stored; `Rejected` raises `APIRequestError` with the registrar's answer. */
  datatype Outcome =
    | Hit(record: Record)
    | Unchecked(record: Record)
    | Fetched(record: Record)
    | Rejected(response: Record)
  {
    /** The returned dictionary shares identity with the cache entry. */
    predicate Aliased() { Hit? || Fetched? }

    function ToAnswer(): Answer
    {
      match this
      case Rejected(response) => Raised(ApiRequestError(response))
      case _ => Returned(record)
    }
  }

  /** What a caller sees: a dictionary, or an exception. */
  datatype Answer = Returned(value: Record) | Raised(failure: Failure)

  datatype Step = Step(outcome: Outcome, store: Store)

  /** One lookup of `domain`. `seed` is the dictionary the miss path starts from
      (`{}` in `src/typo.py`, `{"domain": domain}` in `src/utils.py`), `service` the
      registrar. */
  function LookupStep(st: Store, cfg: Config, domain: string, seed: Record, service: string -> Record): Step
  {
    if cfg.cached && domain in st.entries then
      Step(Hit(st.entries[domain]), st)
    else if !cfg.checkAvailability then
      Step(Unchecked(seed), st)
    else
      var response := service(domain);
      if IsErrorResponse(response) then
        Step(Rejected(response), st.(calls := st.calls + 1))
      else
        var result := seed + response;
        var entries := st.entries[domain := result];
        Step(Fetched(result), Store(
          entries,
          if cfg.cached then entries else st.saved,
          st.calls + 1,
          if cfg.cached then st.saves + 1 else st.saves,
          st.sleeps + 1))
  }

  /** A hit with caching on returns the stored entry and changes nothing: no
      request, no save, no pause. */
  lemma LookupHit(st: Store, cfg: Config, domain: string, seed: Record, service: string -> Record)
    requires cfg.cached && domain in st.entries
    ensures LookupStep(st, cfg, domain, seed, service) == Step(Hit(st.entries[domain]), st)
  {
  }

  /** With checking off, a miss returns the seed dictionary and changes nothing. */
  lemma LookupUnchecked(st: Store, cfg: Config, domain: string, seed: Record, service: string -> Record)
    requires !cfg.checkAvailability && !(cfg.cached && domain in st.entries)
    ensures LookupStep(st, cfg, domain, seed, service) == Step(Unchecked(seed), st)
  {
  }

  /** An error answer raises after exactly one request and before anything is
      stored, saved or paused. */
  lemma LookupRejected(st: Store, cfg: Config, domain: string, seed: Record, service: string -> Record)
    requires cfg.checkAvailability && !(cfg.cached && domain in st.entries)
    requires IsErrorResponse(service(domain))
    ensures var step := LookupStep(st, cfg, domain, seed, service);
      && step.outcome == Rejected(service(domain))
      && step.store == st.(calls := st.calls + 1)
  {
  }

  /** A successful answer overlays the seed, is stored under the domain whatever
      the caching switch says, is saved only when caching is on, and is followed by
      exactly one pause. */
  lemma LookupFetched(st: Store, cfg: Config, domain: string, seed: Record, service: string -> Record)
    requires cfg.checkAvailability && !(cfg.cached && domain in st.entries)
    requires !IsErrorResponse(service(domain))
    ensures var step := LookupStep(st, cfg, domain, seed, service);
      && step.outcome == Fetched(seed + service(domain))
      && step.store.entries == st.entries[domain := seed + service(domain)]
      && step.store.calls == st.calls + 1
      && step.store.sleeps == st.sleeps + 1
      && step.store.saves == st.saves + (if cfg.cached then 1 else 0)
      && step.store.saved == (if cfg.cached then step.store.entries else st.saved)
  {
  }

  /** Every key maps to the overlay: the service's fields win over the seed's. */
  lemma FetchedOverlay(seed: Record, response: Record, key: string)
    ensures key in response ==> (seed + response)[key] == response[key]
    ensures key !in response && key in seed ==> (seed + response)[key] == seed[key]
    ensures (seed + response).Keys == seed.Keys + response.Keys
  {
  }

  /** Bookkeeping that every lookup keeps: no entry is removed, only the looked-up
      domain can change, every pause follows a request, a save happens exactly when
      a pause does and caching is on, and a request that raised was the last one. */
  predicate Accounted(cfg: Config, st: Store, st': Store, raised: bool)
  {
    && st.entries.Keys <= st'.entries.Keys
    && st.calls <= st'.calls
    && st'.calls - st.calls == (st'.sleeps - st.sleeps) + (if raised then 1 else 0)
    && st.sleeps <= st'.sleeps
    && st'.saves - st.saves == (if cfg.cached then st'.sleeps - st.sleeps else 0)
    && (st'.saves == st.saves ==> st'.saved == st.saved)
    && (!cfg.checkAvailability ==> st'.calls == st.calls && st'.entries.Keys == st.entries.Keys && !raised)
  }

  lemma LookupAccounted(st: Store, cfg: Config, domain: string, seed: Record, service: string -> Record)
    ensures var step := LookupStep(st, cfg, domain, seed, service);
      && Accounted(cfg, st, step.store, step.outcome.Rejected?)
      && (forall d :: d in st.entries && d != domain ==> d in step.store.entries && step.store.entries[d] == st.entries[d])
      && (step.outcome.Aliased() ==> domain in step.store.entries && step.store.entries[domain] == step.outcome.record)
      && (step.outcome.Rejected? || step.outcome.Unchecked? ==> step.store.entries == st.entries)
      && (!cfg.checkAvailability ==> step.store == st)
  {
  }

  /** The bookkeeping composes over consecutive lookups, as long as none but the
      last one raised. */
  lemma AccountedTrans(cfg: Config, s0: Store, s1: Store, s2: Store, raised: bool)
    requires Accounted(cfg, s0, s1, false) && Accounted(cfg, s1, s2, raised)
    ensures Accounted(cfg, s0, s2, raised)
  {
  }

  lemma AccountedRefl(cfg: Config, st: Store)
    ensures Accounted(cfg, st, st, false)
  {
  }

  /** After a successful request with caching on, a later run that loads the saved
      cache file and looks the domain up again with caching on gets the identical
      dictionary back without asking the registrar. */
  lemma SavedEntryServesNextRun(st: Store, cfg: Config, domain: string, seed: Record, service: string -> Record,
                                cfg': Config, seed': Record, service': string -> Record)
    requires cfg.cached && cfg'.cached
    requires LookupStep(st, cfg, domain, seed, service).outcome.Fetched?
    ensures var step := LookupStep(st, cfg, domain, seed, service);
      var next := Store(step.store.saved, step.store.saved, 0, 0, 0);
      LookupStep(next, cfg', domain, seed', service') == Step(Hit(step.outcome.record), next)
  {
  }

  /** The cache of one module: `cache`, loaded from the cache file when the module
      is imported, and the two switches it reads. The request, save and pause
      counters and the saved snapshot are ghost state: they record effects that the
      model does not perform. */
  class AvailabilityCache {
    var entries: map<string, Record>
    const config: Config
    ghost var saved: map<string, Record>
    ghost var calls: nat
    ghost var saves: nat
    ghost var sleeps: nat

    ghost function State(): Store
      reads this
    {
      Store(entries, saved, calls, saves, sleeps)
    }

    /** The cache as loaded from the cache file (`{}` when the file is absent or was
        just cleared). */
    constructor (loaded: map<string, Record>, config: Config)
      ensures this.config == config
      ensures State() == Store(loaded, loaded, 0, 0, 0)
    {
      entries := loaded;
      this.config := config;
      saved := loaded;
      calls, saves, sleeps := 0, 0, 0;
    }

    /** `save_cache` / `_save_cache`: the whole map is written to the cache file. */
    method Save()
      modifies this
      ensures State() == old(State()).(saved := entries, saves := old(saves) + 1)
    {
      saved := entries;
      saves := saves + 1;
    }

    /** The body shared by `_check_cached_availability` and `check_cached_availability`. */
    method Lookup(domain: string, seed: Record, service: string -> Record) returns (outcome: Outcome)
      modifies this
      ensures Step(outcome, State()) == LookupStep(old(State()), config, domain, seed, service)
    {
      if config.cached && domain in entries {
        return Hit(entries[domain]);
      }
      var result := seed;
      if !config.checkAvailability {
        return Unchecked(result);
      }
      var response := service(domain);
      calls := calls + 1;
      if IsErrorResponse(response) {
        return Rejected(response);
      }
      result := result + response;
      entries := entries[domain := result];
      if config.cached {
        Save();
      }
      sleeps := sleeps + 1;
      return Fetched(result);
    }
  }
}
