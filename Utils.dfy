/** The helpers of `src/utils.py` that the core uses: the log-level lookup and the
    second availability cache, which differs from the one in `src/typo.py` only in
    the dictionary a miss starts from. */
module Utils {

  import opened CaseMap
  import opened Values
  import opened Availability

  // ---------------------------------------------------------------------------
  // Log levels

  /** The numeric levels of Python's `logging` module. */
  const Critical := 50
  const Error := 40
  const Warning := 30
  const Info := 20
  const Debug := 10
  const NotSet := 0

  /** The dictionary `get_loglevl` looks the upper-cased name up in. */
  const LevelNames: map<string, int> := map[
    "CRITICAL" := Critical,
    "FATAL" := Critical,
    "ERROR" := Error,
    "WARNING" := Warning,
    "WARN" := Warning,
    "INFO" := Info,
    "DEBUG" := Debug,
    "NOTSET" := NotSet
  ]

  /** `get_loglevl`: the level named by `name` in any case; `DEBUG` for a name that
      is not one of the eight. */
  function LogLevel(name: string): (level: int)
    ensures level == Critical <==> Upper(name) == "CRITICAL" || Upper(name) == "FATAL"
    ensures level == Error <==> Upper(name) == "ERROR"
    ensures level == Warning <==> Upper(name) == "WARNING" || Upper(name) == "WARN"
    ensures level == Info <==> Upper(name) == "INFO"
    ensures level == NotSet <==> Upper(name) == "NOTSET"
    ensures level == Debug <==> Upper(name) == "DEBUG" || Upper(name) !in LevelNames
  {
    var key := Upper(name);
    if key in LevelNames then LevelNames[key] else Debug
  }

  /** The lookup ignores case. */
  lemma LogLevelIgnoresCase(name: string)
    ensures LogLevel(name) == LogLevel(Lower(name)) == LogLevel(Upper(name))
  {
    UpperOfLower(name);
    assert Upper(Upper(name)) == Upper(name);
  }

  /** Names in mixed case resolve; unknown names fall back to `DEBUG`. */
  lemma LogLevelExamples()
    ensures LogLevel("info") == Info && LogLevel("Warn") == Warning && LogLevel("fatal") == Critical
    ensures LogLevel("verbose") == Debug && LogLevel("") == Debug
  {
    assert Upper("info") == "INFO";
    assert Upper("Warn") == "WARN";
    assert Upper("fatal") == "FATAL";
    assert Upper("verbose") == "VERBOSE";
    assert Upper("") == "";
  }

  // ---------------------------------------------------------------------------
  // The second availability cache

  /** `{"domain": domain}`: what a miss in this module starts from. */
  function DomainSeed(fqdn: string): (r: Record)
    ensures r.Keys == {"domain"} && r["domain"] == JStr(fqdn)
  {
    map["domain" := JStr(fqdn)]
  }

  /** `check_cached_availability(domain, tld)` on this module's own cache. */
  method CheckCachedAvailability(cache: AvailabilityCache, domain: string, tld: string, service: string -> Record)
    returns (outcome: Outcome)
    modifies cache
    ensures Step(outcome, cache.State())
         == LookupStep(old(cache.State()), cache.config, FullDomain(domain, tld), DomainSeed(FullDomain(domain, tld)), service)
  {
    var fqdn := domain + "." + tld;
    outcome := cache.Lookup(fqdn, map["domain" := JStr(fqdn)], service);
  }

  /** What a caller of `check_cached_availability` sees on a miss: with checking off
      exactly `{"domain": fqdn}`; with checking on, the error raised as
      `APIRequestError` with the cache unchanged, or `{"domain": fqdn}` overlaid with
      the answer, stored under the domain. */
  lemma MissAnswer(st: Store, cfg: Config, domain: string, tld: string, service: string -> Record)
    requires !(cfg.cached && FullDomain(domain, tld) in st.entries)
    ensures var fqdn := FullDomain(domain, tld);
      var step := LookupStep(st, cfg, fqdn, DomainSeed(fqdn), service);
      var answer := step.outcome.ToAnswer();
      && (!cfg.checkAvailability ==> answer == Returned(map["domain" := JStr(fqdn)]) && step.store == st)
      && (cfg.checkAvailability && IsErrorResponse(service(fqdn)) ==>
            answer == Raised(ApiRequestError(service(fqdn))) && step.store.entries == st.entries)
      && (cfg.checkAvailability && !IsErrorResponse(service(fqdn)) ==>
            && answer.Returned?
            && "domain" in answer.value
            && answer.value["domain"] == (if "domain" in service(fqdn) then service(fqdn)["domain"] else JStr(fqdn))
            && (forall key :: key in service(fqdn) ==> key in answer.value && answer.value[key] == service(fqdn)[key])
            && answer.value.Keys == {"domain"} + service(fqdn).Keys
            && step.store.entries == st.entries[fqdn := answer.value])
  {
    var fqdn := FullDomain(domain, tld);
    if cfg.checkAvailability && !IsErrorResponse(service(fqdn)) {
      LookupFetched(st, cfg, fqdn, DomainSeed(fqdn), service);
      forall key | key in service(fqdn) ensures (DomainSeed(fqdn) + service(fqdn))[key] == service(fqdn)[key] {
        FetchedOverlay(DomainSeed(fqdn), service(fqdn), key);
      }
    }
  }

  /** No lookup removes or rewrites an entry other than the one looked up, and every
      key present before is present after: the map only grows. */
  lemma LookupOnlyGrows(st: Store, cfg: Config, domain: string, tld: string, service: string -> Record)
    ensures var fqdn := FullDomain(domain, tld);
      var step := LookupStep(st, cfg, fqdn, DomainSeed(fqdn), service);
      && st.entries.Keys <= step.store.entries.Keys
      && step.store.entries.Keys <= st.entries.Keys + {fqdn}
      && forall d :: d in st.entries && d != fqdn ==> step.store.entries[d] == st.entries[d]
  {
    LookupAccounted(st, cfg, FullDomain(domain, tld), DomainSeed(FullDomain(domain, tld)), service);
  }
}
