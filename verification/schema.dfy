/**
  The configuration schema (dataprowler/core/settings/schema.py): one record
  per section, every field with its default, and the two field validators
  that restrict values to closed sets (search engines and cache type).
  `Validate` turns a raw mapping into a `ConfigSchema`: a missing section or
  field takes its default, a present one must have the field's type, and the
  first failure in declaration order is reported with its location.
*/
module Schema {
  import opened Values
  import opened Paths

  /** A float field: pydantic accepts an integer or a float; a float is kept as its text. */
  datatype FloatValue = FromInt(n: int) | FromText(text: string)

  datatype ApiConfig = ApiConfig(host: string, port: int, debug: bool, requestTimeout: int, maxContentLength: int)
  datatype GoogleSearchConfig = GoogleSearchConfig(apiKey: string, cx: string, country: string)
  datatype BingSearchConfig = BingSearchConfig(apiKey: string, country: string)
  datatype SearchConfig = SearchConfig(
    engines: seq<string>, maxResults: int, timeout: int, google: GoogleSearchConfig, bing: BingSearchConfig)
  datatype RetryConfig = RetryConfig(maxRetries: int, backoffFactor: FloatValue, statusForcelist: seq<int>)
  datatype ScrollBehaviorConfig = ScrollBehaviorConfig(enabled: bool, maxScrolls: int, waitTime: FloatValue)
  datatype ScrapingConfig = ScrapingConfig(
    timeout: int, retry: RetryConfig, userAgents: seq<string>, respectRobotsTxt: bool,
    javascriptEnabled: bool, waitForSelectors: bool, waitTime: FloatValue, scrollBehavior: ScrollBehaviorConfig)
  datatype AntiBotConfig = AntiBotConfig(
    useProxies: bool, proxies: seq<string>, rotateUserAgents: bool, mimicHumanBehavior: bool,
    handleCaptchas: bool, captchaService: string, captchaApiKey: string)
  datatype RateLimitingConfig = RateLimitingConfig(enabled: bool, requestsPerMinute: int, domainSpecific: seq<(string, int)>)
  datatype ContentExtractionConfig = ContentExtractionConfig(modelPath: string, threshold: FloatValue)
  datatype QueryProcessingConfig = QueryProcessingConfig(modelPath: string, maxTokens: int)
  datatype MLConfig = MLConfig(contentExtraction: ContentExtractionConfig, queryProcessing: QueryProcessingConfig)
  datatype DatabaseConfig = DatabaseConfig(url: string, poolSize: int, maxOverflow: int, echo: bool)
  datatype LoggingConfig = LoggingConfig(level: string, format: string, file: string)
  datatype RedisConfig = RedisConfig(host: string, port: int, db: int)
  datatype FilesystemCacheConfig = FilesystemCacheConfig(path: string)
  datatype CacheConfig = CacheConfig(
    enabled: bool, cacheType: string, ttl: int, maxSize: int, redis: RedisConfig, filesystem: FilesystemCacheConfig)
  datatype PerformanceConfig = PerformanceConfig(maxWorkers: int, timeout: int, memoryLimit: int)
  datatype FeaturesConfig = FeaturesConfig(useMlProcessing: bool, advancedExtraction: bool, siteStructureLearning: bool)
  datatype ConfigSchema = ConfigSchema(
    api: ApiConfig, search: SearchConfig, scraping: ScrapingConfig, antiBot: AntiBotConfig,
    rateLimiting: RateLimitingConfig, ml: MLConfig, database: DatabaseConfig, logging: LoggingConfig,
    cache: CacheConfig, performance: PerformanceConfig, features: FeaturesConfig)

  const DefaultApi := ApiConfig("0.0.0.0", 8000, false, 30, 10485760)
  const DefaultGoogle := GoogleSearchConfig("", "", "us")
  const DefaultBing := BingSearchConfig("", "us")
  const DefaultEngines: seq<string> := ["google", "bing"]
  const DefaultSearch := SearchConfig(DefaultEngines, 20, 10, DefaultGoogle, DefaultBing)
  const DefaultRetry := RetryConfig(3, FromText("2.0"), [429, 500, 502, 503, 504])
  const DefaultScroll := ScrollBehaviorConfig(true, 5, FromText("1.5"))
  const DefaultUserAgent: string :=
    "Mozilla/5.0 (Windows NT 10.0; Win64; x64) AppleWebKit/537.36 (KHTML, like Gecko) Chrome/91.0.4472.124 Safari/537.36"
  const DefaultScraping := ScrapingConfig(30, DefaultRetry, [DefaultUserAgent], true, true, true, FromText("5.0"), DefaultScroll)
  const DefaultAntiBot := AntiBotConfig(false, [], true, true, false, "", "")
  const DefaultRateLimiting := RateLimitingConfig(true, 10, [])
  const DefaultContentExtraction := ContentExtractionConfig("", FromText("0.7"))
  const DefaultQueryProcessing := QueryProcessingConfig("", 1024)
  const DefaultMl := MLConfig(DefaultContentExtraction, DefaultQueryProcessing)
  const DefaultDatabase := DatabaseConfig("sqlite:///dataprowler.db", 5, 10, false)
  const DefaultLogging := LoggingConfig("INFO", "%(asctime)s - %(name)s - %(levelname)s - %(message)s", "")
  const DefaultRedis := RedisConfig("localhost", 6379, 0)
  const DefaultFilesystem := FilesystemCacheConfig(".cache")
  const DefaultCache := CacheConfig(true, "memory", 3600, 1000, DefaultRedis, DefaultFilesystem)
  const DefaultPerformance := PerformanceConfig(4, 60, 0)
  const DefaultFeatures := FeaturesConfig(true, true, true)
  const Defaults := ConfigSchema(
    DefaultApi, DefaultSearch, DefaultScraping, DefaultAntiBot, DefaultRateLimiting, DefaultMl,
    DefaultDatabase, DefaultLogging, DefaultCache, DefaultPerformance, DefaultFeatures)

  const SupportedEngines: seq<string> := ["google", "bing", "duckduckgo"]
  const SupportedCacheTypes: seq<string> := ["memory", "redis", "filesystem"]

  /** Why a raw value was refused. */
  datatype Reason =
    | WrongType
    | UnsupportedEngine(engine: string)
    | UnsupportedCacheType(cacheType: string)

  /** A validation failure and the location of the offending value. */
  datatype SchemaError = SchemaError(loc: Path, reason: Reason)

  /** The position of the first engine that is not supported, if any. */
  function FirstUnsupported(v: seq<string>): (r: Option<nat>)
    ensures r.None? <==> forall i :: 0 <= i < |v| ==> v[i] in SupportedEngines
    ensures r.Some? ==> r.value < |v| && v[r.value] !in SupportedEngines
    ensures r.Some? ==> forall j :: 0 <= j < r.value ==> v[j] in SupportedEngines
  {
    if |v| == 0 then None
    else if v[0] !in SupportedEngines then Some(0)
    else match FirstUnsupported(v[1..])
      case None => None
      case Some(i) => Some(i + 1)
  }

  /** `SearchConfig.validate_engines`: the list unchanged, or the first unsupported engine. */
  function ValidateEngines(v: seq<string>): (r: Result<seq<string>, string>)
    ensures r.Ok? <==> forall i :: 0 <= i < |v| ==> v[i] in SupportedEngines
    ensures r.Ok? ==> r.value == v
    ensures r.Err? ==> exists i :: 0 <= i < |v| && v[i] == r.error && v[i] !in SupportedEngines
                         && forall j :: 0 <= j < i ==> v[j] in SupportedEngines
  {
    match FirstUnsupported(v)
    case None => Ok(v)
    case Some(i) => Err(v[i])
  }

  /** `CacheConfig.validate_cache_type`: the value unchanged, or the refused value. */
  function ValidateCacheType(v: string): (r: Result<string, string>)
    ensures r.Ok? <==> v in SupportedCacheTypes
    ensures r.Ok? ==> r.value == v
    ensures r.Err? ==> r.error == v
  {
    if v in SupportedCacheTypes then Ok(v) else Err(v)
  }

  /** The empty list, repeated entries, and every supported engine pass; the check stops at the
      first unsupported entry. */
  lemma ValidateEnginesExamples()
    ensures ValidateEngines([]) == Ok([])
    ensures ValidateEngines(["google", "google"]) == Ok(["google", "google"])
    ensures ValidateEngines(["google", "bing", "duckduckgo"]) == Ok(["google", "bing", "duckduckgo"])
    ensures ValidateEngines(["google", "altavista", "yahoo"]) == Err("altavista")
  {
    var v := ["google", "altavista", "yahoo"];
    assert v[0] in SupportedEngines;
    assert v[1] !in SupportedEngines;
    assert v[1..][0] == "altavista";
  }

  /** The cache-type check is case-sensitive. */
  lemma ValidateCacheTypeExamples()
    ensures ValidateCacheType("redis") == Ok("redis")
    ensures ValidateCacheType("filesystem") == Ok("filesystem")
    ensures ValidateCacheType("Redis") == Err("Redis")
    ensures ValidateCacheType("") == Err("")
  {
    assert "Redis"[0] != "redis"[0];
    assert "Redis" != "memory" && "Redis" != "filesystem";
  }

  /** The defaults pass their own validators. */
  lemma DefaultsPassValidators()
    ensures ValidateEngines(DefaultEngines) == Ok(DefaultEngines)
    ensures ValidateCacheType("memory") == Ok("memory")
  {
    assert DefaultEngines[0] in SupportedEngines && DefaultEngines[1] in SupportedEngines;
  }

  function AsStr(v: Value): Option<string>
  {
    if v.Str? then Some(v.s) else None
  }

  function AsInt(v: Value): Option<int>
  {
    if v.Int? then Some(v.i) else None
  }

  function AsBool(v: Value): Option<bool>
  {
    if v.Bool? then Some(v.b) else None
  }

  function AsFloat(v: Value): Option<FloatValue>
  {
    match v
    case Int(n) => Some(FromInt(n))
    case Float(t) => Some(FromText(t))
    case _ => None
  }

  /** `List[str]`: a list whose every item is a string. */
  function StrItems(items: seq<Value>): (r: Option<seq<string>>)
    ensures r.Some? <==> forall i :: 0 <= i < |items| ==> items[i].Str?
    ensures r.Some? ==> |r.value| == |items| && forall i :: 0 <= i < |items| ==> r.value[i] == items[i].s
  {
    if |items| == 0 then Some([])
    else if !items[0].Str? then None
    else match StrItems(items[1..])
      case None => None
      case Some(rest) => Some([items[0].s] + rest)
  }

  /** `List[int]`: a list whose every item is an integer. */
  function IntItems(items: seq<Value>): (r: Option<seq<int>>)
    ensures r.Some? <==> forall i :: 0 <= i < |items| ==> items[i].Int?
    ensures r.Some? ==> |r.value| == |items| && forall i :: 0 <= i < |items| ==> r.value[i] == items[i].i
  {
    if |items| == 0 then Some([])
    else if !items[0].Int? then None
    else match IntItems(items[1..])
      case None => None
      case Some(rest) => Some([items[0].i] + rest)
  }

  /** `Dict[str, int]`: a mapping whose every value is an integer. */
  function IntEntries(e: Entries): (r: Option<seq<(string, int)>>)
    ensures r.Some? <==> forall i :: 0 <= i < |e| ==> e[i].1.Int?
    ensures r.Some? ==> |r.value| == |e| && forall i :: 0 <= i < |e| ==> r.value[i] == (e[i].0, e[i].1.i)
  {
    if |e| == 0 then Some([])
    else if !e[0].1.Int? then None
    else match IntEntries(e[1..])
      case None => None
      case Some(rest) => Some([(e[0].0, e[0].1.i)] + rest)
  }

  function AsStrList(v: Value): Option<seq<string>>
  {
    if v.List? then StrItems(v.items) else None
  }

  function AsIntList(v: Value): Option<seq<int>>
  {
    if v.List? then IntItems(v.items) else None
  }

  function AsIntMap(v: Value): Option<seq<(string, int)>>
  {
    if v.Dict? then IntEntries(v.entries) else None
  }

  /** One field of a section: its default when absent, its value when it has the field's type. */
  function Field<T>(e: Entries, name: string, default: T, loc: Path, read: Value -> Option<T>): (r: Result<T, SchemaError>)
    ensures !HasKey(e, name) ==> r == Ok(default)
    ensures HasKey(e, name) ==> (r.Ok? <==> read(Get(e, name).value).Some?)
    ensures r.Ok? && HasKey(e, name) ==> read(Get(e, name).value) == Some(r.value)
    ensures r.Err? ==> r.error == SchemaError(loc + [name], WrongType)
  {
    match Get(e, name)
    case None => Ok(default)
    case Some(v) => (
      match read(v)
      case Some(x) => Ok(x)
      case None => Err(SchemaError(loc + [name], WrongType)))
  }

  /** The mapping of a section, or a type error at its location. */
  function Section(v: Value, loc: Path): (r: Result<Entries, SchemaError>)
    ensures r.Ok? <==> v.Dict?
    ensures r.Ok? ==> r.value == v.entries
  {
    if v.Dict? then Ok(v.entries) else Err(SchemaError(loc, WrongType))
  }

  function ReadApi(v: Value, loc: Path): Result<ApiConfig, SchemaError>
  {
    var e :- Section(v, loc);
    var host :- Field(e, "host", "0.0.0.0", loc, AsStr);
    var port :- Field(e, "port", 8000, loc, AsInt);
    var debug :- Field(e, "debug", false, loc, AsBool);
    var requestTimeout :- Field(e, "request_timeout", 30, loc, AsInt);
    var maxContentLength :- Field(e, "max_content_length", 10485760, loc, AsInt);
    Ok(ApiConfig(host, port, debug, requestTimeout, maxContentLength))
  }

  function ReadGoogle(v: Value, loc: Path): Result<GoogleSearchConfig, SchemaError>
  {
    var e :- Section(v, loc);
    var apiKey :- Field(e, "api_key", "", loc, AsStr);
    var cx :- Field(e, "cx", "", loc, AsStr);
    var country :- Field(e, "country", "us", loc, AsStr);
    Ok(GoogleSearchConfig(apiKey, cx, country))
  }

  function ReadBing(v: Value, loc: Path): Result<BingSearchConfig, SchemaError>
  {
    var e :- Section(v, loc);
    var apiKey :- Field(e, "api_key", "", loc, AsStr);
    var country :- Field(e, "country", "us", loc, AsStr);
    Ok(BingSearchConfig(apiKey, country))
  }

  /** A nested section: its default when absent, read at its own location otherwise. */
  function Sub<T>(e: Entries, name: string, default: T, loc: Path, read: (Value, Path) -> Result<T, SchemaError>): (r: Result<T, SchemaError>)
    ensures !HasKey(e, name) ==> r == Ok(default)
  {
    match Get(e, name)
    case None => Ok(default)
    case Some(v) => read(v, loc + [name])
  }

  /** The engines field: a list of strings, checked by the validator when present. */
  function ReadEngines(e: Entries, loc: Path): (r: Result<seq<string>, SchemaError>)
    ensures r.Ok? ==> forall i :: 0 <= i < |r.value| ==> r.value[i] in SupportedEngines
  {
    var engines :- Field(e, "engines", DefaultEngines, loc, AsStrList);
    if !HasKey(e, "engines") then
      DefaultsPassValidators();
      Ok(engines)
    else match ValidateEngines(engines)
      case Ok(x) => Ok(x)
      case Err(bad) => Err(SchemaError(loc + ["engines"], UnsupportedEngine(bad)))
  }

  function ReadSearch(v: Value, loc: Path): (r: Result<SearchConfig, SchemaError>)
    ensures r.Ok? ==> forall i :: 0 <= i < |r.value.engines| ==> r.value.engines[i] in SupportedEngines
  {
    var e :- Section(v, loc);
    var engines :- ReadEngines(e, loc);
    var maxResults :- Field(e, "max_results", 20, loc, AsInt);
    var timeout :- Field(e, "timeout", 10, loc, AsInt);
    var google :- Sub(e, "google", DefaultGoogle, loc, ReadGoogle);
    var bing :- Sub(e, "bing", DefaultBing, loc, ReadBing);
    Ok(SearchConfig(engines, maxResults, timeout, google, bing))
  }

  function ReadRetry(v: Value, loc: Path): Result<RetryConfig, SchemaError>
  {
    var e :- Section(v, loc);
    var maxRetries :- Field(e, "max_retries", 3, loc, AsInt);
    var backoffFactor :- Field(e, "backoff_factor", FromText("2.0"), loc, AsFloat);
    var statusForcelist :- Field(e, "status_forcelist", [429, 500, 502, 503, 504], loc, AsIntList);
    Ok(RetryConfig(maxRetries, backoffFactor, statusForcelist))
  }

  function ReadScroll(v: Value, loc: Path): Result<ScrollBehaviorConfig, SchemaError>
  {
    var e :- Section(v, loc);
    var enabled :- Field(e, "enabled", true, loc, AsBool);
    var maxScrolls :- Field(e, "max_scrolls", 5, loc, AsInt);
    var waitTime :- Field(e, "wait_time", FromText("1.5"), loc, AsFloat);
    Ok(ScrollBehaviorConfig(enabled, maxScrolls, waitTime))
  }

  function ReadScraping(v: Value, loc: Path): Result<ScrapingConfig, SchemaError>
  {
    var e :- Section(v, loc);
    var timeout :- Field(e, "timeout", 30, loc, AsInt);
    var retry :- Sub(e, "retry", DefaultRetry, loc, ReadRetry);
    var userAgents :- Field(e, "user_agents", [DefaultUserAgent], loc, AsStrList);
    var respectRobotsTxt :- Field(e, "respect_robots_txt", true, loc, AsBool);
    var javascriptEnabled :- Field(e, "javascript_enabled", true, loc, AsBool);
    var waitForSelectors :- Field(e, "wait_for_selectors", true, loc, AsBool);
    var waitTime :- Field(e, "wait_time", FromText("5.0"), loc, AsFloat);
    var scrollBehavior :- Sub(e, "scroll_behavior", DefaultScroll, loc, ReadScroll);
    Ok(ScrapingConfig(timeout, retry, userAgents, respectRobotsTxt, javascriptEnabled, waitForSelectors, waitTime, scrollBehavior))
  }

  function ReadAntiBot(v: Value, loc: Path): Result<AntiBotConfig, SchemaError>
  {
    var e :- Section(v, loc);
    var useProxies :- Field(e, "use_proxies", false, loc, AsBool);
    var proxies :- Field(e, "proxies", [], loc, AsStrList);
    var rotateUserAgents :- Field(e, "rotate_user_agents", true, loc, AsBool);
    var mimicHumanBehavior :- Field(e, "mimic_human_behavior", true, loc, AsBool);
    var handleCaptchas :- Field(e, "handle_captchas", false, loc, AsBool);
    var captchaService :- Field(e, "captcha_service", "", loc, AsStr);
    var captchaApiKey :- Field(e, "captcha_api_key", "", loc, AsStr);
    Ok(AntiBotConfig(useProxies, proxies, rotateUserAgents, mimicHumanBehavior, handleCaptchas, captchaService, captchaApiKey))
  }

  function ReadRateLimiting(v: Value, loc: Path): Result<RateLimitingConfig, SchemaError>
  {
    var e :- Section(v, loc);
    var enabled :- Field(e, "enabled", true, loc, AsBool);
    var requestsPerMinute :- Field(e, "requests_per_minute", 10, loc, AsInt);
    var domainSpecific :- Field(e, "domain_specific", [], loc, AsIntMap);
    Ok(RateLimitingConfig(enabled, requestsPerMinute, domainSpecific))
  }

  function ReadContentExtraction(v: Value, loc: Path): Result<ContentExtractionConfig, SchemaError>
  {
    var e :- Section(v, loc);
    var modelPath :- Field(e, "model_path", "", loc, AsStr);
    var threshold :- Field(e, "threshold", FromText("0.7"), loc, AsFloat);
    Ok(ContentExtractionConfig(modelPath, threshold))
  }

  function ReadQueryProcessing(v: Value, loc: Path): Result<QueryProcessingConfig, SchemaError>
  {
    var e :- Section(v, loc);
    var modelPath :- Field(e, "model_path", "", loc, AsStr);
    var maxTokens :- Field(e, "max_tokens", 1024, loc, AsInt);
    Ok(QueryProcessingConfig(modelPath, maxTokens))
  }

  function ReadMl(v: Value, loc: Path): Result<MLConfig, SchemaError>
  {
    var e :- Section(v, loc);
    var contentExtraction :- Sub(e, "content_extraction", DefaultContentExtraction, loc, ReadContentExtraction);
    var queryProcessing :- Sub(e, "query_processing", DefaultQueryProcessing, loc, ReadQueryProcessing);
    Ok(MLConfig(contentExtraction, queryProcessing))
  }

  function ReadDatabase(v: Value, loc: Path): Result<DatabaseConfig, SchemaError>
  {
    var e :- Section(v, loc);
    var url :- Field(e, "url", "sqlite:///dataprowler.db", loc, AsStr);
    var poolSize :- Field(e, "pool_size", 5, loc, AsInt);
    var maxOverflow :- Field(e, "max_overflow", 10, loc, AsInt);
    var echo :- Field(e, "echo", false, loc, AsBool);
    Ok(DatabaseConfig(url, poolSize, maxOverflow, echo))
  }

  function ReadLogging(v: Value, loc: Path): Result<LoggingConfig, SchemaError>
  {
    var e :- Section(v, loc);
    var level :- Field(e, "level", "INFO", loc, AsStr);
    var format :- Field(e, "format", "%(asctime)s - %(name)s - %(levelname)s - %(message)s", loc, AsStr);
    var file :- Field(e, "file", "", loc, AsStr);
    Ok(LoggingConfig(level, format, file))
  }

  function ReadRedis(v: Value, loc: Path): Result<RedisConfig, SchemaError>
  {
    var e :- Section(v, loc);
    var host :- Field(e, "host", "localhost", loc, AsStr);
    var port :- Field(e, "port", 6379, loc, AsInt);
    var db :- Field(e, "db", 0, loc, AsInt);
    Ok(RedisConfig(host, port, db))
  }

  function ReadFilesystem(v: Value, loc: Path): Result<FilesystemCacheConfig, SchemaError>
  {
    var e :- Section(v, loc);
    var path :- Field(e, "path", ".cache", loc, AsStr);
    Ok(FilesystemCacheConfig(path))
  }

  /** The type field: a string, checked by the validator when present. */
  function ReadCacheType(e: Entries, loc: Path): (r: Result<string, SchemaError>)
    ensures r.Ok? ==> r.value in SupportedCacheTypes
  {
    var t :- Field(e, "type", "memory", loc, AsStr);
    if !HasKey(e, "type") then
      DefaultsPassValidators();
      Ok(t)
    else match ValidateCacheType(t)
      case Ok(x) => Ok(x)
      case Err(bad) => Err(SchemaError(loc + ["type"], UnsupportedCacheType(bad)))
  }

  function ReadCache(v: Value, loc: Path): (r: Result<CacheConfig, SchemaError>)
    ensures r.Ok? ==> r.value.cacheType in SupportedCacheTypes
  {
    var e :- Section(v, loc);
    var enabled :- Field(e, "enabled", true, loc, AsBool);
    var cacheType :- ReadCacheType(e, loc);
    var ttl :- Field(e, "ttl", 3600, loc, AsInt);
    var maxSize :- Field(e, "max_size", 1000, loc, AsInt);
    var redis :- Sub(e, "redis", DefaultRedis, loc, ReadRedis);
    var filesystem :- Sub(e, "filesystem", DefaultFilesystem, loc, ReadFilesystem);
    Ok(CacheConfig(enabled, cacheType, ttl, maxSize, redis, filesystem))
  }

  function ReadPerformance(v: Value, loc: Path): Result<PerformanceConfig, SchemaError>
  {
    var e :- Section(v, loc);
    var maxWorkers :- Field(e, "max_workers", 4, loc, AsInt);
    var timeout :- Field(e, "timeout", 60, loc, AsInt);
    var memoryLimit :- Field(e, "memory_limit", 0, loc, AsInt);
    Ok(PerformanceConfig(maxWorkers, timeout, memoryLimit))
  }

  function ReadFeatures(v: Value, loc: Path): Result<FeaturesConfig, SchemaError>
  {
    var e :- Section(v, loc);
    var useMlProcessing :- Field(e, "use_ml_processing", true, loc, AsBool);
    var advancedExtraction :- Field(e, "advanced_extraction", true, loc, AsBool);
    var siteStructureLearning :- Field(e, "site_structure_learning", true, loc, AsBool);
    Ok(FeaturesConfig(useMlProcessing, advancedExtraction, siteStructureLearning))
  }

  /** What the two validators guarantee of a schema. */
  predicate Valid(c: ConfigSchema)
  {
    (forall i :: 0 <= i < |c.search.engines| ==> c.search.engines[i] in SupportedEngines)
    && c.cache.cacheType in SupportedCacheTypes
  }

  /** `ConfigSchema(**raw)`: every section in declaration order, the first failure reported. */
  function Validate(raw: Entries): (r: Result<ConfigSchema, SchemaError>)
    ensures r.Ok? ==> Valid(r.value)
  {
    var api := Sub(raw, "api", DefaultApi, [], ReadApi);
    var search := Sub(raw, "search", DefaultSearch, [], ReadSearch);
    var scraping := Sub(raw, "scraping", DefaultScraping, [], ReadScraping);
    var antiBot := Sub(raw, "anti_bot", DefaultAntiBot, [], ReadAntiBot);
    var rateLimiting := Sub(raw, "rate_limiting", DefaultRateLimiting, [], ReadRateLimiting);
    var ml := Sub(raw, "ml", DefaultMl, [], ReadMl);
    var database := Sub(raw, "database", DefaultDatabase, [], ReadDatabase);
    var logging := Sub(raw, "logging", DefaultLogging, [], ReadLogging);
    var cache := Sub(raw, "cache", DefaultCache, [], ReadCache);
    var performance := Sub(raw, "performance", DefaultPerformance, [], ReadPerformance);
    var features := Sub(raw, "features", DefaultFeatures, [], ReadFeatures);
    if api.Err? then Err(api.error)
    else if search.Err? then Err(search.error)
    else if scraping.Err? then Err(scraping.error)
    else if antiBot.Err? then Err(antiBot.error)
    else if rateLimiting.Err? then Err(rateLimiting.error)
    else if ml.Err? then Err(ml.error)
    else if database.Err? then Err(database.error)
    else if logging.Err? then Err(logging.error)
    else if cache.Err? then Err(cache.error)
    else if performance.Err? then Err(performance.error)
    else if features.Err? then Err(features.error)
    else
      assert search.value.engines == DefaultEngines ==> forall i :: 0 <= i < |search.value.engines| ==> search.value.engines[i] in SupportedEngines by {
        DefaultsPassValidators();
      }
      Ok(ConfigSchema(api.value, search.value, scraping.value, antiBot.value, rateLimiting.value, ml.value,
                      database.value, logging.value, cache.value, performance.value, features.value))
  }

  /** The top-level keys `ConfigSchema` declares. */
  const SectionNames: seq<string> :=
    ["api", "search", "scraping", "anti_bot", "rate_limiting", "ml", "database", "logging", "cache", "performance", "features"]

  /** An entry under a key other than `name`, appended to a mapping, hides nothing from `name`. */
  lemma GetAppendOther(e: Entries, k: string, v: Value, name: string)
    requires k != name
    ensures Get(e + [(k, v)], name) == Get(e, name)
  {
    GetAppend(e, [(k, v)], name);
    assert [(k, v)][1..] == [];
  }

  /** Unknown top-level keys are ignored: appending an entry under a key that names no section
      leaves the outcome of validation as it was. */
  lemma ValidateIgnoresUnknown(raw: Entries, k: string, v: Value)
    requires k !in SectionNames
    ensures Validate(raw + [(k, v)]) == Validate(raw)
  {
    var raw' := raw + [(k, v)];
    assert Sub(raw', "api", DefaultApi, [], ReadApi) == Sub(raw, "api", DefaultApi, [], ReadApi) by { GetAppendOther(raw, k, v, "api"); }
    assert Sub(raw', "search", DefaultSearch, [], ReadSearch) == Sub(raw, "search", DefaultSearch, [], ReadSearch) by { GetAppendOther(raw, k, v, "search"); }
    assert Sub(raw', "scraping", DefaultScraping, [], ReadScraping) == Sub(raw, "scraping", DefaultScraping, [], ReadScraping) by { GetAppendOther(raw, k, v, "scraping"); }
    assert Sub(raw', "anti_bot", DefaultAntiBot, [], ReadAntiBot) == Sub(raw, "anti_bot", DefaultAntiBot, [], ReadAntiBot) by { GetAppendOther(raw, k, v, "anti_bot"); }
    assert Sub(raw', "rate_limiting", DefaultRateLimiting, [], ReadRateLimiting) == Sub(raw, "rate_limiting", DefaultRateLimiting, [], ReadRateLimiting) by { GetAppendOther(raw, k, v, "rate_limiting"); }
    assert Sub(raw', "ml", DefaultMl, [], ReadMl) == Sub(raw, "ml", DefaultMl, [], ReadMl) by { GetAppendOther(raw, k, v, "ml"); }
    assert Sub(raw', "database", DefaultDatabase, [], ReadDatabase) == Sub(raw, "database", DefaultDatabase, [], ReadDatabase) by { GetAppendOther(raw, k, v, "database"); }
    assert Sub(raw', "logging", DefaultLogging, [], ReadLogging) == Sub(raw, "logging", DefaultLogging, [], ReadLogging) by { GetAppendOther(raw, k, v, "logging"); }
    assert Sub(raw', "cache", DefaultCache, [], ReadCache) == Sub(raw, "cache", DefaultCache, [], ReadCache) by { GetAppendOther(raw, k, v, "cache"); }
    assert Sub(raw', "performance", DefaultPerformance, [], ReadPerformance) == Sub(raw, "performance", DefaultPerformance, [], ReadPerformance) by { GetAppendOther(raw, k, v, "performance"); }
    assert Sub(raw', "features", DefaultFeatures, [], ReadFeatures) == Sub(raw, "features", DefaultFeatures, [], ReadFeatures) by { GetAppendOther(raw, k, v, "features"); }
  }

  /** A field reads the same whatever other keys its section holds. */
  lemma FieldIgnoresOther<T>(e: Entries, name: string, default: T, loc: Path, read: Value -> Option<T>, k: string, v: Value)
    requires k != name
    ensures Field(e + [(k, v)], name, default, loc, read) == Field(e, name, default, loc, read)
  {
    GetAppendOther(e, k, v, name);
  }

  /** Unknown keys inside a section are ignored too, shown for the `api` section. */
  lemma ReadApiIgnoresUnknown(e: Entries, loc: Path, k: string, v: Value)
    requires k !in ["host", "port", "debug", "request_timeout", "max_content_length"]
    ensures ReadApi(Dict(e + [(k, v)]), loc) == ReadApi(Dict(e), loc)
  {
    forall name | name in ["host", "port", "debug", "request_timeout", "max_content_length"]
      ensures Get(e + [(k, v)], name) == Get(e, name)
    {
      GetAppendOther(e, k, v, name);
    }
  }

  /** What the environment overlay writes outside the schema is dropped by validation: the
      `config` key that `DATAPROWLER_CONFIG` produces and the `rate.limiting.enabled` path that
      `DATAPROWLER_RATE_LIMITING_ENABLED` produces leave every setting at its default. */
  lemma ValidateUnknownKeys()
    ensures Validate([("config", Str("/etc/x.yaml")), ("rate", Dict([("limiting", Dict([("enabled", Bool(false))]))]))])
         == Ok(Defaults)
  {
  }

  // ---------------------------------------------------------------------------
  // The raw form of a schema (`model_dump`), the inverse of `Validate` on valid schemas.

  function DumpFloat(f: FloatValue): Value
  {
    match f
    case FromInt(n) => Int(n)
    case FromText(t) => Float(t)
  }

  function DumpStrs(v: seq<string>): (r: seq<Value>)
    ensures |r| == |v| && forall i :: 0 <= i < |v| ==> r[i] == Str(v[i])
  {
    if |v| == 0 then [] else [Str(v[0])] + DumpStrs(v[1..])
  }

  function DumpInts(v: seq<int>): (r: seq<Value>)
    ensures |r| == |v| && forall i :: 0 <= i < |v| ==> r[i] == Int(v[i])
  {
    if |v| == 0 then [] else [Int(v[0])] + DumpInts(v[1..])
  }

  function DumpIntEntries(v: seq<(string, int)>): (r: Entries)
    ensures |r| == |v| && forall i :: 0 <= i < |v| ==> r[i] == (v[i].0, Int(v[i].1))
  {
    if |v| == 0 then [] else [(v[0].0, Int(v[0].1))] + DumpIntEntries(v[1..])
  }

  /** A present field of the right type reads as its value. */
  lemma FieldGot<T>(e: Entries, name: string, default: T, loc: Path, read: Value -> Option<T>)
    requires Get(e, name).Some? && read(Get(e, name).value).Some?
    ensures Field(e, name, default, loc, read) == Ok(read(Get(e, name).value).value)
  {
  }

  lemma ReadDumpFloat(f: FloatValue)
    ensures AsFloat(DumpFloat(f)) == Some(f)
  {
  }

  lemma ReadDumpStrs(v: seq<string>)
    ensures AsStrList(List(DumpStrs(v))) == Some(v)
  {
    var r := StrItems(DumpStrs(v));
    assert r.value == v;
  }

  lemma ReadDumpInts(v: seq<int>)
    ensures AsIntList(List(DumpInts(v))) == Some(v)
  {
    var r := IntItems(DumpInts(v));
    assert r.value == v;
  }

  lemma ReadDumpIntEntries(v: seq<(string, int)>)
    ensures AsIntMap(Dict(DumpIntEntries(v))) == Some(v)
  {
    var r := IntEntries(DumpIntEntries(v));
    assert r.value == v;
  }

  lemma EnginesGot(e: Entries, loc: Path, v: seq<string>)
    requires Get(e, "engines") == Some(List(DumpStrs(v)))
    requires forall k :: 0 <= k < |v| ==> v[k] in SupportedEngines
    ensures ReadEngines(e, loc) == Ok(v)
  {
    ReadDumpStrs(v);
    assert Field(e, "engines", DefaultEngines, loc, AsStrList) == Ok(v);
    assert ValidateEngines(v) == Ok(v);
  }

  lemma CacheTypeGot(e: Entries, loc: Path, v: string)
    requires Get(e, "type") == Some(Str(v)) && v in SupportedCacheTypes
    ensures ReadCacheType(e, loc) == Ok(v)
  {
  }

  function DumpApi(a: ApiConfig): Value
  {
    Dict([("host", Str(a.host)),
          ("port", Int(a.port)),
          ("debug", Bool(a.debug)),
          ("request_timeout", Int(a.requestTimeout)),
          ("max_content_length", Int(a.maxContentLength))])
  }

  lemma ReadApiFrom(e: Entries, loc: Path, a: ApiConfig)
    requires Get(e, "host") == Some(Str(a.host))
    requires Get(e, "port") == Some(Int(a.port))
    requires Get(e, "debug") == Some(Bool(a.debug))
    requires Get(e, "request_timeout") == Some(Int(a.requestTimeout))
    requires Get(e, "max_content_length") == Some(Int(a.maxContentLength))
    ensures ReadApi(Dict(e), loc) == Ok(a)
  {
    assert Field(e, "host", "0.0.0.0", loc, AsStr) == Ok(a.host) by { FieldGot(e, "host", "0.0.0.0", loc, AsStr); }
    assert Field(e, "port", 8000, loc, AsInt) == Ok(a.port) by { FieldGot(e, "port", 8000, loc, AsInt); }
    assert Field(e, "debug", false, loc, AsBool) == Ok(a.debug) by { FieldGot(e, "debug", false, loc, AsBool); }
    assert Field(e, "request_timeout", 30, loc, AsInt) == Ok(a.requestTimeout) by { FieldGot(e, "request_timeout", 30, loc, AsInt); }
    assert Field(e, "max_content_length", 10485760, loc, AsInt) == Ok(a.maxContentLength) by { FieldGot(e, "max_content_length", 10485760, loc, AsInt); }
  }

  lemma DumpApiKeys1(a: ApiConfig)
    ensures Get(DumpApi(a).entries, "host") == Some(Str(a.host))
    ensures Get(DumpApi(a).entries, "port") == Some(Int(a.port))
    ensures Get(DumpApi(a).entries, "debug") == Some(Bool(a.debug))
  {
    var e := DumpApi(a).entries;
    GetAt(e, 0);
    GetAt(e, 1);
    GetAt(e, 2);
  }

  lemma DumpApiKeys2(a: ApiConfig)
    ensures Get(DumpApi(a).entries, "request_timeout") == Some(Int(a.requestTimeout))
    ensures Get(DumpApi(a).entries, "max_content_length") == Some(Int(a.maxContentLength))
  {
    var e := DumpApi(a).entries;
    GetAt(e, 3);
    GetAt(e, 4);
  }

  lemma ReadDumpApi(a: ApiConfig, loc: Path)
    ensures ReadApi(DumpApi(a), loc) == Ok(a)
  {
    DumpApiKeys1(a);
    DumpApiKeys2(a);
    ReadApiFrom(DumpApi(a).entries, loc, a);
  }

  function DumpGoogle(g: GoogleSearchConfig): Value
  {
    Dict([("api_key", Str(g.apiKey)),
          ("cx", Str(g.cx)),
          ("country", Str(g.country))])
  }

  lemma ReadGoogleFrom(e: Entries, loc: Path, g: GoogleSearchConfig)
    requires Get(e, "api_key") == Some(Str(g.apiKey))
    requires Get(e, "cx") == Some(Str(g.cx))
    requires Get(e, "country") == Some(Str(g.country))
    ensures ReadGoogle(Dict(e), loc) == Ok(g)
  {
    assert Field(e, "api_key", "", loc, AsStr) == Ok(g.apiKey) by { FieldGot(e, "api_key", "", loc, AsStr); }
    assert Field(e, "cx", "", loc, AsStr) == Ok(g.cx) by { FieldGot(e, "cx", "", loc, AsStr); }
    assert Field(e, "country", "us", loc, AsStr) == Ok(g.country) by { FieldGot(e, "country", "us", loc, AsStr); }
  }

  lemma DumpGoogleKeys(g: GoogleSearchConfig)
    ensures Get(DumpGoogle(g).entries, "api_key") == Some(Str(g.apiKey))
    ensures Get(DumpGoogle(g).entries, "cx") == Some(Str(g.cx))
    ensures Get(DumpGoogle(g).entries, "country") == Some(Str(g.country))
  {
    var e := DumpGoogle(g).entries;
    GetAt(e, 0);
    GetAt(e, 1);
    GetAt(e, 2);
  }

  lemma ReadDumpGoogle(g: GoogleSearchConfig, loc: Path)
    ensures ReadGoogle(DumpGoogle(g), loc) == Ok(g)
  {
    DumpGoogleKeys(g);
    ReadGoogleFrom(DumpGoogle(g).entries, loc, g);
  }

  function DumpBing(b: BingSearchConfig): Value
  {
    Dict([("api_key", Str(b.apiKey)),
          ("country", Str(b.country))])
  }

  lemma ReadBingFrom(e: Entries, loc: Path, b: BingSearchConfig)
    requires Get(e, "api_key") == Some(Str(b.apiKey))
    requires Get(e, "country") == Some(Str(b.country))
    ensures ReadBing(Dict(e), loc) == Ok(b)
  {
    assert Field(e, "api_key", "", loc, AsStr) == Ok(b.apiKey) by { FieldGot(e, "api_key", "", loc, AsStr); }
    assert Field(e, "country", "us", loc, AsStr) == Ok(b.country) by { FieldGot(e, "country", "us", loc, AsStr); }
  }

  lemma DumpBingKeys(b: BingSearchConfig)
    ensures Get(DumpBing(b).entries, "api_key") == Some(Str(b.apiKey))
    ensures Get(DumpBing(b).entries, "country") == Some(Str(b.country))
  {
    var e := DumpBing(b).entries;
    GetAt(e, 0);
    GetAt(e, 1);
  }

  lemma ReadDumpBing(b: BingSearchConfig, loc: Path)
    ensures ReadBing(DumpBing(b), loc) == Ok(b)
  {
    DumpBingKeys(b);
    ReadBingFrom(DumpBing(b).entries, loc, b);
  }

  function DumpSearch(s: SearchConfig): Value
  {
    Dict([("engines", List(DumpStrs(s.engines))),
          ("max_results", Int(s.maxResults)),
          ("timeout", Int(s.timeout)),
          ("google", DumpGoogle(s.google)),
          ("bing", DumpBing(s.bing))])
  }

  lemma ReadSearchFrom(e: Entries, loc: Path, s: SearchConfig)
    requires forall i :: 0 <= i < |s.engines| ==> s.engines[i] in SupportedEngines
    requires Get(e, "engines") == Some(List(DumpStrs(s.engines)))
    requires Get(e, "max_results") == Some(Int(s.maxResults))
    requires Get(e, "timeout") == Some(Int(s.timeout))
    requires Get(e, "google") == Some(DumpGoogle(s.google))
    requires ReadGoogle(DumpGoogle(s.google), loc + ["google"]) == Ok(s.google)
    requires Get(e, "bing") == Some(DumpBing(s.bing))
    requires ReadBing(DumpBing(s.bing), loc + ["bing"]) == Ok(s.bing)
    ensures ReadSearch(Dict(e), loc) == Ok(s)
  {
    assert ReadEngines(e, loc) == Ok(s.engines) by { EnginesGot(e, loc, s.engines); }
    assert Field(e, "max_results", 20, loc, AsInt) == Ok(s.maxResults) by { FieldGot(e, "max_results", 20, loc, AsInt); }
    assert Field(e, "timeout", 10, loc, AsInt) == Ok(s.timeout) by { FieldGot(e, "timeout", 10, loc, AsInt); }
    assert Sub(e, "google", DefaultGoogle, loc, ReadGoogle) == Ok(s.google);
    assert Sub(e, "bing", DefaultBing, loc, ReadBing) == Ok(s.bing);
  }

  lemma DumpSearchKeys1(s: SearchConfig)
    ensures Get(DumpSearch(s).entries, "engines") == Some(List(DumpStrs(s.engines)))
    ensures Get(DumpSearch(s).entries, "max_results") == Some(Int(s.maxResults))
    ensures Get(DumpSearch(s).entries, "timeout") == Some(Int(s.timeout))
  {
    var e := DumpSearch(s).entries;
    GetAt(e, 0);
    GetAt(e, 1);
    GetAt(e, 2);
  }

  lemma DumpSearchKeys2(s: SearchConfig)
    ensures Get(DumpSearch(s).entries, "google") == Some(DumpGoogle(s.google))
    ensures Get(DumpSearch(s).entries, "bing") == Some(DumpBing(s.bing))
  {
    var e := DumpSearch(s).entries;
    GetAt(e, 3);
    GetAt(e, 4);
  }

  lemma ReadDumpSearch(s: SearchConfig, loc: Path)
    requires forall i :: 0 <= i < |s.engines| ==> s.engines[i] in SupportedEngines
    ensures ReadSearch(DumpSearch(s), loc) == Ok(s)
  {
    DumpSearchKeys1(s);
    DumpSearchKeys2(s);
    ReadDumpGoogle(s.google, loc + ["google"]);
    ReadDumpBing(s.bing, loc + ["bing"]);
    ReadSearchFrom(DumpSearch(s).entries, loc, s);
  }

  function DumpRetry(r: RetryConfig): Value
  {
    Dict([("max_retries", Int(r.maxRetries)),
          ("backoff_factor", DumpFloat(r.backoffFactor)),
          ("status_forcelist", List(DumpInts(r.statusForcelist)))])
  }

  lemma ReadRetryFrom(e: Entries, loc: Path, r: RetryConfig)
    requires Get(e, "max_retries") == Some(Int(r.maxRetries))
    requires Get(e, "backoff_factor") == Some(DumpFloat(r.backoffFactor))
    requires Get(e, "status_forcelist") == Some(List(DumpInts(r.statusForcelist)))
    ensures ReadRetry(Dict(e), loc) == Ok(r)
  {
    assert Field(e, "max_retries", 3, loc, AsInt) == Ok(r.maxRetries) by { FieldGot(e, "max_retries", 3, loc, AsInt); }
    assert Field(e, "backoff_factor", FromText("2.0"), loc, AsFloat) == Ok(r.backoffFactor) by { ReadDumpFloat(r.backoffFactor); FieldGot(e, "backoff_factor", FromText("2.0"), loc, AsFloat); }
    assert Field(e, "status_forcelist", [429, 500, 502, 503, 504], loc, AsIntList) == Ok(r.statusForcelist) by { ReadDumpInts(r.statusForcelist); FieldGot(e, "status_forcelist", [429, 500, 502, 503, 504], loc, AsIntList); }
  }

  lemma DumpRetryKeys(r: RetryConfig)
    ensures Get(DumpRetry(r).entries, "max_retries") == Some(Int(r.maxRetries))
    ensures Get(DumpRetry(r).entries, "backoff_factor") == Some(DumpFloat(r.backoffFactor))
    ensures Get(DumpRetry(r).entries, "status_forcelist") == Some(List(DumpInts(r.statusForcelist)))
  {
    var e := DumpRetry(r).entries;
    GetAt(e, 0);
    GetAt(e, 1);
    GetAt(e, 2);
  }

  lemma ReadDumpRetry(r: RetryConfig, loc: Path)
    ensures ReadRetry(DumpRetry(r), loc) == Ok(r)
  {
    DumpRetryKeys(r);
    ReadRetryFrom(DumpRetry(r).entries, loc, r);
  }

  function DumpScroll(b: ScrollBehaviorConfig): Value
  {
    Dict([("enabled", Bool(b.enabled)),
          ("max_scrolls", Int(b.maxScrolls)),
          ("wait_time", DumpFloat(b.waitTime))])
  }

  lemma ReadScrollFrom(e: Entries, loc: Path, b: ScrollBehaviorConfig)
    requires Get(e, "enabled") == Some(Bool(b.enabled))
    requires Get(e, "max_scrolls") == Some(Int(b.maxScrolls))
    requires Get(e, "wait_time") == Some(DumpFloat(b.waitTime))
    ensures ReadScroll(Dict(e), loc) == Ok(b)
  {
    assert Field(e, "enabled", true, loc, AsBool) == Ok(b.enabled) by { FieldGot(e, "enabled", true, loc, AsBool); }
    assert Field(e, "max_scrolls", 5, loc, AsInt) == Ok(b.maxScrolls) by { FieldGot(e, "max_scrolls", 5, loc, AsInt); }
    assert Field(e, "wait_time", FromText("1.5"), loc, AsFloat) == Ok(b.waitTime) by { ReadDumpFloat(b.waitTime); FieldGot(e, "wait_time", FromText("1.5"), loc, AsFloat); }
  }

  lemma DumpScrollKeys(b: ScrollBehaviorConfig)
    ensures Get(DumpScroll(b).entries, "enabled") == Some(Bool(b.enabled))
    ensures Get(DumpScroll(b).entries, "max_scrolls") == Some(Int(b.maxScrolls))
    ensures Get(DumpScroll(b).entries, "wait_time") == Some(DumpFloat(b.waitTime))
  {
    var e := DumpScroll(b).entries;
    GetAt(e, 0);
    GetAt(e, 1);
    GetAt(e, 2);
  }

  lemma ReadDumpScroll(b: ScrollBehaviorConfig, loc: Path)
    ensures ReadScroll(DumpScroll(b), loc) == Ok(b)
  {
    DumpScrollKeys(b);
    ReadScrollFrom(DumpScroll(b).entries, loc, b);
  }

  function DumpScraping(s: ScrapingConfig): Value
  {
    Dict([("timeout", Int(s.timeout)),
          ("retry", DumpRetry(s.retry)),
          ("user_agents", List(DumpStrs(s.userAgents))),
          ("respect_robots_txt", Bool(s.respectRobotsTxt)),
          ("javascript_enabled", Bool(s.javascriptEnabled)),
          ("wait_for_selectors", Bool(s.waitForSelectors)),
          ("wait_time", DumpFloat(s.waitTime)),
          ("scroll_behavior", DumpScroll(s.scrollBehavior))])
  }

  lemma ReadScrapingFrom(e: Entries, loc: Path, s: ScrapingConfig)
    requires Get(e, "timeout") == Some(Int(s.timeout))
    requires Get(e, "retry") == Some(DumpRetry(s.retry))
    requires ReadRetry(DumpRetry(s.retry), loc + ["retry"]) == Ok(s.retry)
    requires Get(e, "user_agents") == Some(List(DumpStrs(s.userAgents)))
    requires Get(e, "respect_robots_txt") == Some(Bool(s.respectRobotsTxt))
    requires Get(e, "javascript_enabled") == Some(Bool(s.javascriptEnabled))
    requires Get(e, "wait_for_selectors") == Some(Bool(s.waitForSelectors))
    requires Get(e, "wait_time") == Some(DumpFloat(s.waitTime))
    requires Get(e, "scroll_behavior") == Some(DumpScroll(s.scrollBehavior))
    requires ReadScroll(DumpScroll(s.scrollBehavior), loc + ["scroll_behavior"]) == Ok(s.scrollBehavior)
    ensures ReadScraping(Dict(e), loc) == Ok(s)
  {
    assert Field(e, "timeout", 30, loc, AsInt) == Ok(s.timeout) by { FieldGot(e, "timeout", 30, loc, AsInt); }
    assert Sub(e, "retry", DefaultRetry, loc, ReadRetry) == Ok(s.retry);
    assert Field(e, "user_agents", [DefaultUserAgent], loc, AsStrList) == Ok(s.userAgents) by { ReadDumpStrs(s.userAgents); FieldGot(e, "user_agents", [DefaultUserAgent], loc, AsStrList); }
    assert Field(e, "respect_robots_txt", true, loc, AsBool) == Ok(s.respectRobotsTxt) by { FieldGot(e, "respect_robots_txt", true, loc, AsBool); }
    assert Field(e, "javascript_enabled", true, loc, AsBool) == Ok(s.javascriptEnabled) by { FieldGot(e, "javascript_enabled", true, loc, AsBool); }
    assert Field(e, "wait_for_selectors", true, loc, AsBool) == Ok(s.waitForSelectors) by { FieldGot(e, "wait_for_selectors", true, loc, AsBool); }
    assert Field(e, "wait_time", FromText("5.0"), loc, AsFloat) == Ok(s.waitTime) by { ReadDumpFloat(s.waitTime); FieldGot(e, "wait_time", FromText("5.0"), loc, AsFloat); }
    assert Sub(e, "scroll_behavior", DefaultScroll, loc, ReadScroll) == Ok(s.scrollBehavior);
  }

  lemma DumpScrapingKeys1(s: ScrapingConfig)
    ensures Get(DumpScraping(s).entries, "timeout") == Some(Int(s.timeout))
    ensures Get(DumpScraping(s).entries, "retry") == Some(DumpRetry(s.retry))
    ensures Get(DumpScraping(s).entries, "user_agents") == Some(List(DumpStrs(s.userAgents)))
  {
    var e := DumpScraping(s).entries;
    GetAt(e, 0);
    GetAt(e, 1);
    GetAt(e, 2);
  }

  lemma DumpScrapingKeys2(s: ScrapingConfig)
    ensures Get(DumpScraping(s).entries, "respect_robots_txt") == Some(Bool(s.respectRobotsTxt))
    ensures Get(DumpScraping(s).entries, "javascript_enabled") == Some(Bool(s.javascriptEnabled))
    ensures Get(DumpScraping(s).entries, "wait_for_selectors") == Some(Bool(s.waitForSelectors))
  {
    var e := DumpScraping(s).entries;
    GetAt(e, 3);
    GetAt(e, 4);
    GetAt(e, 5);
  }

  lemma DumpScrapingKeys3(s: ScrapingConfig)
    ensures Get(DumpScraping(s).entries, "wait_time") == Some(DumpFloat(s.waitTime))
    ensures Get(DumpScraping(s).entries, "scroll_behavior") == Some(DumpScroll(s.scrollBehavior))
  {
    var e := DumpScraping(s).entries;
    GetAt(e, 6);
    GetAt(e, 7);
  }

  lemma ReadDumpScraping(s: ScrapingConfig, loc: Path)
    ensures ReadScraping(DumpScraping(s), loc) == Ok(s)
  {
    DumpScrapingKeys1(s);
    DumpScrapingKeys2(s);
    DumpScrapingKeys3(s);
    ReadDumpRetry(s.retry, loc + ["retry"]);
    ReadDumpScroll(s.scrollBehavior, loc + ["scroll_behavior"]);
    ReadScrapingFrom(DumpScraping(s).entries, loc, s);
  }

  function DumpAntiBot(a: AntiBotConfig): Value
  {
    Dict([("use_proxies", Bool(a.useProxies)),
          ("proxies", List(DumpStrs(a.proxies))),
          ("rotate_user_agents", Bool(a.rotateUserAgents)),
          ("mimic_human_behavior", Bool(a.mimicHumanBehavior)),
          ("handle_captchas", Bool(a.handleCaptchas)),
          ("captcha_service", Str(a.captchaService)),
          ("captcha_api_key", Str(a.captchaApiKey))])
  }

  lemma ReadAntiBotFrom(e: Entries, loc: Path, a: AntiBotConfig)
    requires Get(e, "use_proxies") == Some(Bool(a.useProxies))
    requires Get(e, "proxies") == Some(List(DumpStrs(a.proxies)))
    requires Get(e, "rotate_user_agents") == Some(Bool(a.rotateUserAgents))
    requires Get(e, "mimic_human_behavior") == Some(Bool(a.mimicHumanBehavior))
    requires Get(e, "handle_captchas") == Some(Bool(a.handleCaptchas))
    requires Get(e, "captcha_service") == Some(Str(a.captchaService))
    requires Get(e, "captcha_api_key") == Some(Str(a.captchaApiKey))
    ensures ReadAntiBot(Dict(e), loc) == Ok(a)
  {
    assert Field(e, "use_proxies", false, loc, AsBool) == Ok(a.useProxies) by { FieldGot(e, "use_proxies", false, loc, AsBool); }
    assert Field(e, "proxies", [], loc, AsStrList) == Ok(a.proxies) by { ReadDumpStrs(a.proxies); FieldGot(e, "proxies", [], loc, AsStrList); }
    assert Field(e, "rotate_user_agents", true, loc, AsBool) == Ok(a.rotateUserAgents) by { FieldGot(e, "rotate_user_agents", true, loc, AsBool); }
    assert Field(e, "mimic_human_behavior", true, loc, AsBool) == Ok(a.mimicHumanBehavior) by { FieldGot(e, "mimic_human_behavior", true, loc, AsBool); }
    assert Field(e, "handle_captchas", false, loc, AsBool) == Ok(a.handleCaptchas) by { FieldGot(e, "handle_captchas", false, loc, AsBool); }
    assert Field(e, "captcha_service", "", loc, AsStr) == Ok(a.captchaService) by { FieldGot(e, "captcha_service", "", loc, AsStr); }
    assert Field(e, "captcha_api_key", "", loc, AsStr) == Ok(a.captchaApiKey) by { FieldGot(e, "captcha_api_key", "", loc, AsStr); }
  }

  lemma DumpAntiBotKeys1(a: AntiBotConfig)
    ensures Get(DumpAntiBot(a).entries, "use_proxies") == Some(Bool(a.useProxies))
    ensures Get(DumpAntiBot(a).entries, "proxies") == Some(List(DumpStrs(a.proxies)))
    ensures Get(DumpAntiBot(a).entries, "rotate_user_agents") == Some(Bool(a.rotateUserAgents))
  {
    var e := DumpAntiBot(a).entries;
    GetAt(e, 0);
    GetAt(e, 1);
    GetAt(e, 2);
  }

  lemma DumpAntiBotKeys2(a: AntiBotConfig)
    ensures Get(DumpAntiBot(a).entries, "mimic_human_behavior") == Some(Bool(a.mimicHumanBehavior))
    ensures Get(DumpAntiBot(a).entries, "handle_captchas") == Some(Bool(a.handleCaptchas))
    ensures Get(DumpAntiBot(a).entries, "captcha_service") == Some(Str(a.captchaService))
  {
    var e := DumpAntiBot(a).entries;
    GetAt(e, 3);
    GetAt(e, 4);
    GetAt(e, 5);
  }

  lemma DumpAntiBotKeys3(a: AntiBotConfig)
    ensures Get(DumpAntiBot(a).entries, "captcha_api_key") == Some(Str(a.captchaApiKey))
  {
    var e := DumpAntiBot(a).entries;
    GetAt(e, 6);
  }

  lemma ReadDumpAntiBot(a: AntiBotConfig, loc: Path)
    ensures ReadAntiBot(DumpAntiBot(a), loc) == Ok(a)
  {
    DumpAntiBotKeys1(a);
    DumpAntiBotKeys2(a);
    DumpAntiBotKeys3(a);
    ReadAntiBotFrom(DumpAntiBot(a).entries, loc, a);
  }

  function DumpRateLimiting(r: RateLimitingConfig): Value
  {
    Dict([("enabled", Bool(r.enabled)),
          ("requests_per_minute", Int(r.requestsPerMinute)),
          ("domain_specific", Dict(DumpIntEntries(r.domainSpecific)))])
  }

  lemma ReadRateLimitingFrom(e: Entries, loc: Path, r: RateLimitingConfig)
    requires Get(e, "enabled") == Some(Bool(r.enabled))
    requires Get(e, "requests_per_minute") == Some(Int(r.requestsPerMinute))
    requires Get(e, "domain_specific") == Some(Dict(DumpIntEntries(r.domainSpecific)))
    ensures ReadRateLimiting(Dict(e), loc) == Ok(r)
  {
    assert Field(e, "enabled", true, loc, AsBool) == Ok(r.enabled) by { FieldGot(e, "enabled", true, loc, AsBool); }
    assert Field(e, "requests_per_minute", 10, loc, AsInt) == Ok(r.requestsPerMinute) by { FieldGot(e, "requests_per_minute", 10, loc, AsInt); }
    assert Field(e, "domain_specific", [], loc, AsIntMap) == Ok(r.domainSpecific) by { ReadDumpIntEntries(r.domainSpecific); FieldGot(e, "domain_specific", [], loc, AsIntMap); }
  }

  lemma DumpRateLimitingKeys(r: RateLimitingConfig)
    ensures Get(DumpRateLimiting(r).entries, "enabled") == Some(Bool(r.enabled))
    ensures Get(DumpRateLimiting(r).entries, "requests_per_minute") == Some(Int(r.requestsPerMinute))
    ensures Get(DumpRateLimiting(r).entries, "domain_specific") == Some(Dict(DumpIntEntries(r.domainSpecific)))
  {
    var e := DumpRateLimiting(r).entries;
    GetAt(e, 0);
    GetAt(e, 1);
    GetAt(e, 2);
  }

  lemma ReadDumpRateLimiting(r: RateLimitingConfig, loc: Path)
    ensures ReadRateLimiting(DumpRateLimiting(r), loc) == Ok(r)
  {
    DumpRateLimitingKeys(r);
    ReadRateLimitingFrom(DumpRateLimiting(r).entries, loc, r);
  }

  function DumpContentExtraction(c: ContentExtractionConfig): Value
  {
    Dict([("model_path", Str(c.modelPath)),
          ("threshold", DumpFloat(c.threshold))])
  }

  lemma ReadContentExtractionFrom(e: Entries, loc: Path, c: ContentExtractionConfig)
    requires Get(e, "model_path") == Some(Str(c.modelPath))
    requires Get(e, "threshold") == Some(DumpFloat(c.threshold))
    ensures ReadContentExtraction(Dict(e), loc) == Ok(c)
  {
    assert Field(e, "model_path", "", loc, AsStr) == Ok(c.modelPath) by { FieldGot(e, "model_path", "", loc, AsStr); }
    assert Field(e, "threshold", FromText("0.7"), loc, AsFloat) == Ok(c.threshold) by { ReadDumpFloat(c.threshold); FieldGot(e, "threshold", FromText("0.7"), loc, AsFloat); }
  }

  lemma DumpContentExtractionKeys(c: ContentExtractionConfig)
    ensures Get(DumpContentExtraction(c).entries, "model_path") == Some(Str(c.modelPath))
    ensures Get(DumpContentExtraction(c).entries, "threshold") == Some(DumpFloat(c.threshold))
  {
    var e := DumpContentExtraction(c).entries;
    GetAt(e, 0);
    GetAt(e, 1);
  }

  lemma ReadDumpContentExtraction(c: ContentExtractionConfig, loc: Path)
    ensures ReadContentExtraction(DumpContentExtraction(c), loc) == Ok(c)
  {
    DumpContentExtractionKeys(c);
    ReadContentExtractionFrom(DumpContentExtraction(c).entries, loc, c);
  }

  function DumpQueryProcessing(q: QueryProcessingConfig): Value
  {
    Dict([("model_path", Str(q.modelPath)),
          ("max_tokens", Int(q.maxTokens))])
  }

  lemma ReadQueryProcessingFrom(e: Entries, loc: Path, q: QueryProcessingConfig)
    requires Get(e, "model_path") == Some(Str(q.modelPath))
    requires Get(e, "max_tokens") == Some(Int(q.maxTokens))
    ensures ReadQueryProcessing(Dict(e), loc) == Ok(q)
  {
    assert Field(e, "model_path", "", loc, AsStr) == Ok(q.modelPath) by { FieldGot(e, "model_path", "", loc, AsStr); }
    assert Field(e, "max_tokens", 1024, loc, AsInt) == Ok(q.maxTokens) by { FieldGot(e, "max_tokens", 1024, loc, AsInt); }
  }

  lemma DumpQueryProcessingKeys(q: QueryProcessingConfig)
    ensures Get(DumpQueryProcessing(q).entries, "model_path") == Some(Str(q.modelPath))
    ensures Get(DumpQueryProcessing(q).entries, "max_tokens") == Some(Int(q.maxTokens))
  {
    var e := DumpQueryProcessing(q).entries;
    GetAt(e, 0);
    GetAt(e, 1);
  }

  lemma ReadDumpQueryProcessing(q: QueryProcessingConfig, loc: Path)
    ensures ReadQueryProcessing(DumpQueryProcessing(q), loc) == Ok(q)
  {
    DumpQueryProcessingKeys(q);
    ReadQueryProcessingFrom(DumpQueryProcessing(q).entries, loc, q);
  }

  function DumpMl(m: MLConfig): Value
  {
    Dict([("content_extraction", DumpContentExtraction(m.contentExtraction)),
          ("query_processing", DumpQueryProcessing(m.queryProcessing))])
  }

  lemma ReadMlFrom(e: Entries, loc: Path, m: MLConfig)
    requires Get(e, "content_extraction") == Some(DumpContentExtraction(m.contentExtraction))
    requires ReadContentExtraction(DumpContentExtraction(m.contentExtraction), loc + ["content_extraction"]) == Ok(m.contentExtraction)
    requires Get(e, "query_processing") == Some(DumpQueryProcessing(m.queryProcessing))
    requires ReadQueryProcessing(DumpQueryProcessing(m.queryProcessing), loc + ["query_processing"]) == Ok(m.queryProcessing)
    ensures ReadMl(Dict(e), loc) == Ok(m)
  {
    assert Sub(e, "content_extraction", DefaultContentExtraction, loc, ReadContentExtraction) == Ok(m.contentExtraction);
    assert Sub(e, "query_processing", DefaultQueryProcessing, loc, ReadQueryProcessing) == Ok(m.queryProcessing);
  }

  lemma DumpMlKeys(m: MLConfig)
    ensures Get(DumpMl(m).entries, "content_extraction") == Some(DumpContentExtraction(m.contentExtraction))
    ensures Get(DumpMl(m).entries, "query_processing") == Some(DumpQueryProcessing(m.queryProcessing))
  {
    var e := DumpMl(m).entries;
    GetAt(e, 0);
    GetAt(e, 1);
  }

  lemma ReadDumpMl(m: MLConfig, loc: Path)
    ensures ReadMl(DumpMl(m), loc) == Ok(m)
  {
    DumpMlKeys(m);
    ReadDumpContentExtraction(m.contentExtraction, loc + ["content_extraction"]);
    ReadDumpQueryProcessing(m.queryProcessing, loc + ["query_processing"]);
    ReadMlFrom(DumpMl(m).entries, loc, m);
  }

  function DumpDatabase(d: DatabaseConfig): Value
  {
    Dict([("url", Str(d.url)),
          ("pool_size", Int(d.poolSize)),
          ("max_overflow", Int(d.maxOverflow)),
          ("echo", Bool(d.echo))])
  }

  lemma ReadDatabaseFrom(e: Entries, loc: Path, d: DatabaseConfig)
    requires Get(e, "url") == Some(Str(d.url))
    requires Get(e, "pool_size") == Some(Int(d.poolSize))
    requires Get(e, "max_overflow") == Some(Int(d.maxOverflow))
    requires Get(e, "echo") == Some(Bool(d.echo))
    ensures ReadDatabase(Dict(e), loc) == Ok(d)
  {
    assert Field(e, "url", "sqlite:///dataprowler.db", loc, AsStr) == Ok(d.url) by { FieldGot(e, "url", "sqlite:///dataprowler.db", loc, AsStr); }
    assert Field(e, "pool_size", 5, loc, AsInt) == Ok(d.poolSize) by { FieldGot(e, "pool_size", 5, loc, AsInt); }
    assert Field(e, "max_overflow", 10, loc, AsInt) == Ok(d.maxOverflow) by { FieldGot(e, "max_overflow", 10, loc, AsInt); }
    assert Field(e, "echo", false, loc, AsBool) == Ok(d.echo) by { FieldGot(e, "echo", false, loc, AsBool); }
  }

  lemma DumpDatabaseKeys1(d: DatabaseConfig)
    ensures Get(DumpDatabase(d).entries, "url") == Some(Str(d.url))
    ensures Get(DumpDatabase(d).entries, "pool_size") == Some(Int(d.poolSize))
    ensures Get(DumpDatabase(d).entries, "max_overflow") == Some(Int(d.maxOverflow))
  {
    var e := DumpDatabase(d).entries;
    GetAt(e, 0);
    GetAt(e, 1);
    GetAt(e, 2);
  }

  lemma DumpDatabaseKeys2(d: DatabaseConfig)
    ensures Get(DumpDatabase(d).entries, "echo") == Some(Bool(d.echo))
  {
    var e := DumpDatabase(d).entries;
    GetAt(e, 3);
  }

  lemma ReadDumpDatabase(d: DatabaseConfig, loc: Path)
    ensures ReadDatabase(DumpDatabase(d), loc) == Ok(d)
  {
    DumpDatabaseKeys1(d);
    DumpDatabaseKeys2(d);
    ReadDatabaseFrom(DumpDatabase(d).entries, loc, d);
  }

  function DumpLogging(l: LoggingConfig): Value
  {
    Dict([("level", Str(l.level)),
          ("format", Str(l.format)),
          ("file", Str(l.file))])
  }

  lemma ReadLoggingFrom(e: Entries, loc: Path, l: LoggingConfig)
    requires Get(e, "level") == Some(Str(l.level))
    requires Get(e, "format") == Some(Str(l.format))
    requires Get(e, "file") == Some(Str(l.file))
    ensures ReadLogging(Dict(e), loc) == Ok(l)
  {
    assert Field(e, "level", "INFO", loc, AsStr) == Ok(l.level) by { FieldGot(e, "level", "INFO", loc, AsStr); }
    assert Field(e, "format", "%(asctime)s - %(name)s - %(levelname)s - %(message)s", loc, AsStr) == Ok(l.format) by { FieldGot(e, "format", "%(asctime)s - %(name)s - %(levelname)s - %(message)s", loc, AsStr); }
    assert Field(e, "file", "", loc, AsStr) == Ok(l.file) by { FieldGot(e, "file", "", loc, AsStr); }
  }

  lemma DumpLoggingKeys(l: LoggingConfig)
    ensures Get(DumpLogging(l).entries, "level") == Some(Str(l.level))
    ensures Get(DumpLogging(l).entries, "format") == Some(Str(l.format))
    ensures Get(DumpLogging(l).entries, "file") == Some(Str(l.file))
  {
    var e := DumpLogging(l).entries;
    GetAt(e, 0);
    GetAt(e, 1);
    GetAt(e, 2);
  }

  lemma ReadDumpLogging(l: LoggingConfig, loc: Path)
    ensures ReadLogging(DumpLogging(l), loc) == Ok(l)
  {
    DumpLoggingKeys(l);
    ReadLoggingFrom(DumpLogging(l).entries, loc, l);
  }

  function DumpRedis(r: RedisConfig): Value
  {
    Dict([("host", Str(r.host)),
          ("port", Int(r.port)),
          ("db", Int(r.db))])
  }

  lemma ReadRedisFrom(e: Entries, loc: Path, r: RedisConfig)
    requires Get(e, "host") == Some(Str(r.host))
    requires Get(e, "port") == Some(Int(r.port))
    requires Get(e, "db") == Some(Int(r.db))
    ensures ReadRedis(Dict(e), loc) == Ok(r)
  {
    assert Field(e, "host", "localhost", loc, AsStr) == Ok(r.host) by { FieldGot(e, "host", "localhost", loc, AsStr); }
    assert Field(e, "port", 6379, loc, AsInt) == Ok(r.port) by { FieldGot(e, "port", 6379, loc, AsInt); }
    assert Field(e, "db", 0, loc, AsInt) == Ok(r.db) by { FieldGot(e, "db", 0, loc, AsInt); }
  }

  lemma DumpRedisKeys(r: RedisConfig)
    ensures Get(DumpRedis(r).entries, "host") == Some(Str(r.host))
    ensures Get(DumpRedis(r).entries, "port") == Some(Int(r.port))
    ensures Get(DumpRedis(r).entries, "db") == Some(Int(r.db))
  {
    var e := DumpRedis(r).entries;
    GetAt(e, 0);
    GetAt(e, 1);
    GetAt(e, 2);
  }

  lemma ReadDumpRedis(r: RedisConfig, loc: Path)
    ensures ReadRedis(DumpRedis(r), loc) == Ok(r)
  {
    DumpRedisKeys(r);
    ReadRedisFrom(DumpRedis(r).entries, loc, r);
  }

  function DumpFilesystem(f: FilesystemCacheConfig): Value
  {
    Dict([("path", Str(f.path))])
  }

  lemma ReadFilesystemFrom(e: Entries, loc: Path, f: FilesystemCacheConfig)
    requires Get(e, "path") == Some(Str(f.path))
    ensures ReadFilesystem(Dict(e), loc) == Ok(f)
  {
    assert Field(e, "path", ".cache", loc, AsStr) == Ok(f.path) by { FieldGot(e, "path", ".cache", loc, AsStr); }
  }

  lemma DumpFilesystemKeys(f: FilesystemCacheConfig)
    ensures Get(DumpFilesystem(f).entries, "path") == Some(Str(f.path))
  {
    var e := DumpFilesystem(f).entries;
    GetAt(e, 0);
  }

  lemma ReadDumpFilesystem(f: FilesystemCacheConfig, loc: Path)
    ensures ReadFilesystem(DumpFilesystem(f), loc) == Ok(f)
  {
    DumpFilesystemKeys(f);
    ReadFilesystemFrom(DumpFilesystem(f).entries, loc, f);
  }

  function DumpCache(c: CacheConfig): Value
  {
    Dict([("enabled", Bool(c.enabled)),
          ("type", Str(c.cacheType)),
          ("ttl", Int(c.ttl)),
          ("max_size", Int(c.maxSize)),
          ("redis", DumpRedis(c.redis)),
          ("filesystem", DumpFilesystem(c.filesystem))])
  }

  lemma ReadCacheFrom(e: Entries, loc: Path, c: CacheConfig)
    requires c.cacheType in SupportedCacheTypes
    requires Get(e, "enabled") == Some(Bool(c.enabled))
    requires Get(e, "type") == Some(Str(c.cacheType))
    requires Get(e, "ttl") == Some(Int(c.ttl))
    requires Get(e, "max_size") == Some(Int(c.maxSize))
    requires Get(e, "redis") == Some(DumpRedis(c.redis))
    requires ReadRedis(DumpRedis(c.redis), loc + ["redis"]) == Ok(c.redis)
    requires Get(e, "filesystem") == Some(DumpFilesystem(c.filesystem))
    requires ReadFilesystem(DumpFilesystem(c.filesystem), loc + ["filesystem"]) == Ok(c.filesystem)
    ensures ReadCache(Dict(e), loc) == Ok(c)
  {
    assert Field(e, "enabled", true, loc, AsBool) == Ok(c.enabled) by { FieldGot(e, "enabled", true, loc, AsBool); }
    assert ReadCacheType(e, loc) == Ok(c.cacheType) by { CacheTypeGot(e, loc, c.cacheType); }
    assert Field(e, "ttl", 3600, loc, AsInt) == Ok(c.ttl) by { FieldGot(e, "ttl", 3600, loc, AsInt); }
    assert Field(e, "max_size", 1000, loc, AsInt) == Ok(c.maxSize) by { FieldGot(e, "max_size", 1000, loc, AsInt); }
    assert Sub(e, "redis", DefaultRedis, loc, ReadRedis) == Ok(c.redis);
    assert Sub(e, "filesystem", DefaultFilesystem, loc, ReadFilesystem) == Ok(c.filesystem);
  }

  lemma DumpCacheKeys1(c: CacheConfig)
    ensures Get(DumpCache(c).entries, "enabled") == Some(Bool(c.enabled))
    ensures Get(DumpCache(c).entries, "type") == Some(Str(c.cacheType))
    ensures Get(DumpCache(c).entries, "ttl") == Some(Int(c.ttl))
  {
    var e := DumpCache(c).entries;
    GetAt(e, 0);
    GetAt(e, 1);
    GetAt(e, 2);
  }

  lemma DumpCacheKeys2(c: CacheConfig)
    ensures Get(DumpCache(c).entries, "max_size") == Some(Int(c.maxSize))
    ensures Get(DumpCache(c).entries, "redis") == Some(DumpRedis(c.redis))
    ensures Get(DumpCache(c).entries, "filesystem") == Some(DumpFilesystem(c.filesystem))
  {
    var e := DumpCache(c).entries;
    GetAt(e, 3);
    GetAt(e, 4);
    GetAt(e, 5);
  }

  lemma ReadDumpCache(c: CacheConfig, loc: Path)
    requires c.cacheType in SupportedCacheTypes
    ensures ReadCache(DumpCache(c), loc) == Ok(c)
  {
    DumpCacheKeys1(c);
    DumpCacheKeys2(c);
    ReadDumpRedis(c.redis, loc + ["redis"]);
    ReadDumpFilesystem(c.filesystem, loc + ["filesystem"]);
    ReadCacheFrom(DumpCache(c).entries, loc, c);
  }

  function DumpPerformance(p: PerformanceConfig): Value
  {
    Dict([("max_workers", Int(p.maxWorkers)),
          ("timeout", Int(p.timeout)),
          ("memory_limit", Int(p.memoryLimit))])
  }

  lemma ReadPerformanceFrom(e: Entries, loc: Path, p: PerformanceConfig)
    requires Get(e, "max_workers") == Some(Int(p.maxWorkers))
    requires Get(e, "timeout") == Some(Int(p.timeout))
    requires Get(e, "memory_limit") == Some(Int(p.memoryLimit))
    ensures ReadPerformance(Dict(e), loc) == Ok(p)
  {
    assert Field(e, "max_workers", 4, loc, AsInt) == Ok(p.maxWorkers) by { FieldGot(e, "max_workers", 4, loc, AsInt); }
    assert Field(e, "timeout", 60, loc, AsInt) == Ok(p.timeout) by { FieldGot(e, "timeout", 60, loc, AsInt); }
    assert Field(e, "memory_limit", 0, loc, AsInt) == Ok(p.memoryLimit) by { FieldGot(e, "memory_limit", 0, loc, AsInt); }
  }

  lemma DumpPerformanceKeys(p: PerformanceConfig)
    ensures Get(DumpPerformance(p).entries, "max_workers") == Some(Int(p.maxWorkers))
    ensures Get(DumpPerformance(p).entries, "timeout") == Some(Int(p.timeout))
    ensures Get(DumpPerformance(p).entries, "memory_limit") == Some(Int(p.memoryLimit))
  {
    var e := DumpPerformance(p).entries;
    GetAt(e, 0);
    GetAt(e, 1);
    GetAt(e, 2);
  }

  lemma ReadDumpPerformance(p: PerformanceConfig, loc: Path)
    ensures ReadPerformance(DumpPerformance(p), loc) == Ok(p)
  {
    DumpPerformanceKeys(p);
    ReadPerformanceFrom(DumpPerformance(p).entries, loc, p);
  }

  function DumpFeatures(f: FeaturesConfig): Value
  {
    Dict([("use_ml_processing", Bool(f.useMlProcessing)),
          ("advanced_extraction", Bool(f.advancedExtraction)),
          ("site_structure_learning", Bool(f.siteStructureLearning))])
  }

  lemma ReadFeaturesFrom(e: Entries, loc: Path, f: FeaturesConfig)
    requires Get(e, "use_ml_processing") == Some(Bool(f.useMlProcessing))
    requires Get(e, "advanced_extraction") == Some(Bool(f.advancedExtraction))
    requires Get(e, "site_structure_learning") == Some(Bool(f.siteStructureLearning))
    ensures ReadFeatures(Dict(e), loc) == Ok(f)
  {
    assert Field(e, "use_ml_processing", true, loc, AsBool) == Ok(f.useMlProcessing) by { FieldGot(e, "use_ml_processing", true, loc, AsBool); }
    assert Field(e, "advanced_extraction", true, loc, AsBool) == Ok(f.advancedExtraction) by { FieldGot(e, "advanced_extraction", true, loc, AsBool); }
    assert Field(e, "site_structure_learning", true, loc, AsBool) == Ok(f.siteStructureLearning) by { FieldGot(e, "site_structure_learning", true, loc, AsBool); }
  }

  lemma DumpFeaturesKeys(f: FeaturesConfig)
    ensures Get(DumpFeatures(f).entries, "use_ml_processing") == Some(Bool(f.useMlProcessing))
    ensures Get(DumpFeatures(f).entries, "advanced_extraction") == Some(Bool(f.advancedExtraction))
    ensures Get(DumpFeatures(f).entries, "site_structure_learning") == Some(Bool(f.siteStructureLearning))
  {
    var e := DumpFeatures(f).entries;
    GetAt(e, 0);
    GetAt(e, 1);
    GetAt(e, 2);
  }

  lemma ReadDumpFeatures(f: FeaturesConfig, loc: Path)
    ensures ReadFeatures(DumpFeatures(f), loc) == Ok(f)
  {
    DumpFeaturesKeys(f);
    ReadFeaturesFrom(DumpFeatures(f).entries, loc, f);
  }

  /** The top-level mapping holding one value per section, in declaration order. */
  function Sections(api: Value, search: Value, scraping: Value, antiBot: Value, rateLimiting: Value, ml: Value, database: Value, logging: Value, cache: Value, performance: Value, features: Value): Entries
  {
    [("api", api),
     ("search", search),
     ("scraping", scraping),
     ("anti_bot", antiBot),
     ("rate_limiting", rateLimiting),
     ("ml", ml),
     ("database", database),
     ("logging", logging),
     ("cache", cache),
     ("performance", performance),
     ("features", features)]
  }

  /** The raw mapping of a whole schema. */
  function Dump(c: ConfigSchema): Entries
  {
    Sections(DumpApi(c.api), DumpSearch(c.search), DumpScraping(c.scraping), DumpAntiBot(c.antiBot), DumpRateLimiting(c.rateLimiting), DumpMl(c.ml), DumpDatabase(c.database), DumpLogging(c.logging), DumpCache(c.cache), DumpPerformance(c.performance), DumpFeatures(c.features))
  }

  lemma SubGot<T>(e: Entries, name: string, default: T, loc: Path, read: (Value, Path) -> Result<T, SchemaError>, x: T)
    requires Get(e, name).Some? && read(Get(e, name).value, loc + [name]) == Ok(x)
    ensures Sub(e, name, default, loc, read) == Ok(x)
  {
  }

  lemma SubFails<T>(e: Entries, name: string, default: T, loc: Path, read: (Value, Path) -> Result<T, SchemaError>, err: SchemaError)
    requires Get(e, name).Some? && read(Get(e, name).value, loc + [name]) == Err(err)
    ensures Sub(e, name, default, loc, read) == Err(err)
  {
  }

  lemma ValidateFrom(raw: Entries, c: ConfigSchema)
    requires Sub(raw, "api", DefaultApi, [], ReadApi) == Ok(c.api)
    requires Sub(raw, "search", DefaultSearch, [], ReadSearch) == Ok(c.search)
    requires Sub(raw, "scraping", DefaultScraping, [], ReadScraping) == Ok(c.scraping)
    requires Sub(raw, "anti_bot", DefaultAntiBot, [], ReadAntiBot) == Ok(c.antiBot)
    requires Sub(raw, "rate_limiting", DefaultRateLimiting, [], ReadRateLimiting) == Ok(c.rateLimiting)
    requires Sub(raw, "ml", DefaultMl, [], ReadMl) == Ok(c.ml)
    requires Sub(raw, "database", DefaultDatabase, [], ReadDatabase) == Ok(c.database)
    requires Sub(raw, "logging", DefaultLogging, [], ReadLogging) == Ok(c.logging)
    requires Sub(raw, "cache", DefaultCache, [], ReadCache) == Ok(c.cache)
    requires Sub(raw, "performance", DefaultPerformance, [], ReadPerformance) == Ok(c.performance)
    requires Sub(raw, "features", DefaultFeatures, [], ReadFeatures) == Ok(c.features)
    ensures Validate(raw) == Ok(c)
  {
  }

  lemma SectionsGet1(api: Value, search: Value, scraping: Value, antiBot: Value, rateLimiting: Value, ml: Value, database: Value, logging: Value, cache: Value, performance: Value, features: Value)
    ensures Get(Sections(api, search, scraping, antiBot, rateLimiting, ml, database, logging, cache, performance, features), "api") == Some(api)
    ensures Get(Sections(api, search, scraping, antiBot, rateLimiting, ml, database, logging, cache, performance, features), "search") == Some(search)
    ensures Get(Sections(api, search, scraping, antiBot, rateLimiting, ml, database, logging, cache, performance, features), "scraping") == Some(scraping)
  {
    var e := Sections(api, search, scraping, antiBot, rateLimiting, ml, database, logging, cache, performance, features);
    GetAt(e, 0);
    GetAt(e, 1);
    GetAt(e, 2);
  }

  lemma SectionsGet2(api: Value, search: Value, scraping: Value, antiBot: Value, rateLimiting: Value, ml: Value, database: Value, logging: Value, cache: Value, performance: Value, features: Value)
    ensures Get(Sections(api, search, scraping, antiBot, rateLimiting, ml, database, logging, cache, performance, features), "anti_bot") == Some(antiBot)
    ensures Get(Sections(api, search, scraping, antiBot, rateLimiting, ml, database, logging, cache, performance, features), "rate_limiting") == Some(rateLimiting)
    ensures Get(Sections(api, search, scraping, antiBot, rateLimiting, ml, database, logging, cache, performance, features), "ml") == Some(ml)
  {
    var e := Sections(api, search, scraping, antiBot, rateLimiting, ml, database, logging, cache, performance, features);
    GetAt(e, 3);
    GetAt(e, 4);
    GetAt(e, 5);
  }

  lemma SectionsGet3(api: Value, search: Value, scraping: Value, antiBot: Value, rateLimiting: Value, ml: Value, database: Value, logging: Value, cache: Value, performance: Value, features: Value)
    ensures Get(Sections(api, search, scraping, antiBot, rateLimiting, ml, database, logging, cache, performance, features), "database") == Some(database)
    ensures Get(Sections(api, search, scraping, antiBot, rateLimiting, ml, database, logging, cache, performance, features), "logging") == Some(logging)
  {
    var e := Sections(api, search, scraping, antiBot, rateLimiting, ml, database, logging, cache, performance, features);
    GetAt(e, 6);
    GetAt(e, 7);
  }

  lemma SectionsGet4(api: Value, search: Value, scraping: Value, antiBot: Value, rateLimiting: Value, ml: Value, database: Value, logging: Value, cache: Value, performance: Value, features: Value)
    ensures Get(Sections(api, search, scraping, antiBot, rateLimiting, ml, database, logging, cache, performance, features), "cache") == Some(cache)
  {
    var e := Sections(api, search, scraping, antiBot, rateLimiting, ml, database, logging, cache, performance, features);
    GetAt(e, 8);
  }

  lemma SectionsGet5(api: Value, search: Value, scraping: Value, antiBot: Value, rateLimiting: Value, ml: Value, database: Value, logging: Value, cache: Value, performance: Value, features: Value)
    ensures Get(Sections(api, search, scraping, antiBot, rateLimiting, ml, database, logging, cache, performance, features), "performance") == Some(performance)
  {
    var e := Sections(api, search, scraping, antiBot, rateLimiting, ml, database, logging, cache, performance, features);
    GetAt(e, 9);
  }

  lemma SectionsGet6(api: Value, search: Value, scraping: Value, antiBot: Value, rateLimiting: Value, ml: Value, database: Value, logging: Value, cache: Value, performance: Value, features: Value)
    ensures Get(Sections(api, search, scraping, antiBot, rateLimiting, ml, database, logging, cache, performance, features), "features") == Some(features)
  {
    var e := Sections(api, search, scraping, antiBot, rateLimiting, ml, database, logging, cache, performance, features);
    GetAt(e, 10);
  }

  lemma ValidateDumpApiSection(c: ConfigSchema)
    ensures Sub(Dump(c), "api", DefaultApi, [], ReadApi) == Ok(c.api)
  {
    SectionsGet1(DumpApi(c.api), DumpSearch(c.search), DumpScraping(c.scraping), DumpAntiBot(c.antiBot), DumpRateLimiting(c.rateLimiting), DumpMl(c.ml), DumpDatabase(c.database), DumpLogging(c.logging), DumpCache(c.cache), DumpPerformance(c.performance), DumpFeatures(c.features));
    ReadDumpApi(c.api, [] + ["api"]);
    SubGot(Dump(c), "api", DefaultApi, [], ReadApi, c.api);
  }

  lemma ValidateDumpSearchSection(c: ConfigSchema)
    requires forall i :: 0 <= i < |c.search.engines| ==> c.search.engines[i] in SupportedEngines
    ensures Sub(Dump(c), "search", DefaultSearch, [], ReadSearch) == Ok(c.search)
  {
    SectionsGet1(DumpApi(c.api), DumpSearch(c.search), DumpScraping(c.scraping), DumpAntiBot(c.antiBot), DumpRateLimiting(c.rateLimiting), DumpMl(c.ml), DumpDatabase(c.database), DumpLogging(c.logging), DumpCache(c.cache), DumpPerformance(c.performance), DumpFeatures(c.features));
    ReadDumpSearch(c.search, [] + ["search"]);
    SubGot(Dump(c), "search", DefaultSearch, [], ReadSearch, c.search);
  }

  lemma ValidateDumpScrapingSections(c: ConfigSchema)
    ensures Sub(Dump(c), "scraping", DefaultScraping, [], ReadScraping) == Ok(c.scraping)
    ensures Sub(Dump(c), "anti_bot", DefaultAntiBot, [], ReadAntiBot) == Ok(c.antiBot)
    ensures Sub(Dump(c), "rate_limiting", DefaultRateLimiting, [], ReadRateLimiting) == Ok(c.rateLimiting)
  {
    SectionsGet1(DumpApi(c.api), DumpSearch(c.search), DumpScraping(c.scraping), DumpAntiBot(c.antiBot), DumpRateLimiting(c.rateLimiting), DumpMl(c.ml), DumpDatabase(c.database), DumpLogging(c.logging), DumpCache(c.cache), DumpPerformance(c.performance), DumpFeatures(c.features));
    SectionsGet2(DumpApi(c.api), DumpSearch(c.search), DumpScraping(c.scraping), DumpAntiBot(c.antiBot), DumpRateLimiting(c.rateLimiting), DumpMl(c.ml), DumpDatabase(c.database), DumpLogging(c.logging), DumpCache(c.cache), DumpPerformance(c.performance), DumpFeatures(c.features));
    ReadDumpScraping(c.scraping, [] + ["scraping"]);
    SubGot(Dump(c), "scraping", DefaultScraping, [], ReadScraping, c.scraping);
    ReadDumpAntiBot(c.antiBot, [] + ["anti_bot"]);
    SubGot(Dump(c), "anti_bot", DefaultAntiBot, [], ReadAntiBot, c.antiBot);
    ReadDumpRateLimiting(c.rateLimiting, [] + ["rate_limiting"]);
    SubGot(Dump(c), "rate_limiting", DefaultRateLimiting, [], ReadRateLimiting, c.rateLimiting);
  }

  lemma ValidateDumpMlSections(c: ConfigSchema)
    ensures Sub(Dump(c), "ml", DefaultMl, [], ReadMl) == Ok(c.ml)
    ensures Sub(Dump(c), "database", DefaultDatabase, [], ReadDatabase) == Ok(c.database)
    ensures Sub(Dump(c), "logging", DefaultLogging, [], ReadLogging) == Ok(c.logging)
  {
    SectionsGet2(DumpApi(c.api), DumpSearch(c.search), DumpScraping(c.scraping), DumpAntiBot(c.antiBot), DumpRateLimiting(c.rateLimiting), DumpMl(c.ml), DumpDatabase(c.database), DumpLogging(c.logging), DumpCache(c.cache), DumpPerformance(c.performance), DumpFeatures(c.features));
    SectionsGet3(DumpApi(c.api), DumpSearch(c.search), DumpScraping(c.scraping), DumpAntiBot(c.antiBot), DumpRateLimiting(c.rateLimiting), DumpMl(c.ml), DumpDatabase(c.database), DumpLogging(c.logging), DumpCache(c.cache), DumpPerformance(c.performance), DumpFeatures(c.features));
    ReadDumpMl(c.ml, [] + ["ml"]);
    SubGot(Dump(c), "ml", DefaultMl, [], ReadMl, c.ml);
    ReadDumpDatabase(c.database, [] + ["database"]);
    SubGot(Dump(c), "database", DefaultDatabase, [], ReadDatabase, c.database);
    ReadDumpLogging(c.logging, [] + ["logging"]);
    SubGot(Dump(c), "logging", DefaultLogging, [], ReadLogging, c.logging);
  }

  lemma ValidateDumpCacheSection(c: ConfigSchema)
    requires c.cache.cacheType in SupportedCacheTypes
    ensures Sub(Dump(c), "cache", DefaultCache, [], ReadCache) == Ok(c.cache)
  {
    SectionsGet4(DumpApi(c.api), DumpSearch(c.search), DumpScraping(c.scraping), DumpAntiBot(c.antiBot), DumpRateLimiting(c.rateLimiting), DumpMl(c.ml), DumpDatabase(c.database), DumpLogging(c.logging), DumpCache(c.cache), DumpPerformance(c.performance), DumpFeatures(c.features));
    ReadDumpCache(c.cache, [] + ["cache"]);
    SubGot(Dump(c), "cache", DefaultCache, [], ReadCache, c.cache);
  }

  lemma ValidateDumpPerformanceSections(c: ConfigSchema)
    ensures Sub(Dump(c), "performance", DefaultPerformance, [], ReadPerformance) == Ok(c.performance)
    ensures Sub(Dump(c), "features", DefaultFeatures, [], ReadFeatures) == Ok(c.features)
  {
    SectionsGet5(DumpApi(c.api), DumpSearch(c.search), DumpScraping(c.scraping), DumpAntiBot(c.antiBot), DumpRateLimiting(c.rateLimiting), DumpMl(c.ml), DumpDatabase(c.database), DumpLogging(c.logging), DumpCache(c.cache), DumpPerformance(c.performance), DumpFeatures(c.features));
    SectionsGet6(DumpApi(c.api), DumpSearch(c.search), DumpScraping(c.scraping), DumpAntiBot(c.antiBot), DumpRateLimiting(c.rateLimiting), DumpMl(c.ml), DumpDatabase(c.database), DumpLogging(c.logging), DumpCache(c.cache), DumpPerformance(c.performance), DumpFeatures(c.features));
    ReadDumpPerformance(c.performance, [] + ["performance"]);
    SubGot(Dump(c), "performance", DefaultPerformance, [], ReadPerformance, c.performance);
    ReadDumpFeatures(c.features, [] + ["features"]);
    SubGot(Dump(c), "features", DefaultFeatures, [], ReadFeatures, c.features);
  }

  /** A valid schema survives the trip through its raw form. */
  lemma ValidateDump(c: ConfigSchema)
    requires Valid(c)
    ensures Validate(Dump(c)) == Ok(c)
  {
    ValidateDumpApiSection(c);
    ValidateDumpSearchSection(c);
    ValidateDumpScrapingSections(c);
    ValidateDumpMlSections(c);
    ValidateDumpCacheSection(c);
    ValidateDumpPerformanceSections(c);
    ValidateFrom(Dump(c), c);
  }

  /** The raw form of a schema with an unsupported engine fails at that engine. */
  lemma ReadDumpSearchRejects(s: SearchConfig, loc: Path)
    requires FirstUnsupported(s.engines).Some?
    ensures ReadSearch(DumpSearch(s), loc)
         == Err(SchemaError(loc + ["engines"], UnsupportedEngine(s.engines[FirstUnsupported(s.engines).value])))
  {
    DumpSearchKeys1(s);
    var e := DumpSearch(s).entries;
    ReadDumpStrs(s.engines);
    assert Field(e, "engines", DefaultEngines, loc, AsStrList) == Ok(s.engines);
  }

  /** The raw form of a schema with an unsupported cache type fails at that field. */
  lemma ReadDumpCacheRejects(c: CacheConfig, loc: Path)
    requires c.cacheType !in SupportedCacheTypes
    ensures ReadCache(DumpCache(c), loc) == Err(SchemaError(loc + ["type"], UnsupportedCacheType(c.cacheType)))
  {
    DumpCacheKeys1(c);
    var e := DumpCache(c).entries;
    assert Field(e, "enabled", true, loc, AsBool) == Ok(c.enabled);
    assert ReadCacheType(e, loc) == Err(SchemaError(loc + ["type"], UnsupportedCacheType(c.cacheType)));
  }

  lemma ValidateStopsAtSearch(raw: Entries, api: ApiConfig, err: SchemaError)
    requires Sub(raw, "api", DefaultApi, [], ReadApi) == Ok(api)
    requires Sub(raw, "search", DefaultSearch, [], ReadSearch) == Err(err)
    ensures Validate(raw) == Err(err)
  {
  }

  lemma ValidateStopsAtCache(raw: Entries, c: ConfigSchema, err: SchemaError)
    requires Sub(raw, "api", DefaultApi, [], ReadApi) == Ok(c.api)
    requires Sub(raw, "search", DefaultSearch, [], ReadSearch) == Ok(c.search)
    requires Sub(raw, "scraping", DefaultScraping, [], ReadScraping) == Ok(c.scraping)
    requires Sub(raw, "anti_bot", DefaultAntiBot, [], ReadAntiBot) == Ok(c.antiBot)
    requires Sub(raw, "rate_limiting", DefaultRateLimiting, [], ReadRateLimiting) == Ok(c.rateLimiting)
    requires Sub(raw, "ml", DefaultMl, [], ReadMl) == Ok(c.ml)
    requires Sub(raw, "database", DefaultDatabase, [], ReadDatabase) == Ok(c.database)
    requires Sub(raw, "logging", DefaultLogging, [], ReadLogging) == Ok(c.logging)
    requires Sub(raw, "cache", DefaultCache, [], ReadCache) == Err(err)
    ensures Validate(raw) == Err(err)
  {
  }

  /** The first validator failure of a schema, in declaration order. */
  function FirstViolation(c: ConfigSchema): SchemaError
    requires !Valid(c)
  {
    match FirstUnsupported(c.search.engines)
    case Some(i) => SchemaError(["search", "engines"], UnsupportedEngine(c.search.engines[i]))
    case None => SchemaError(["cache", "type"], UnsupportedCacheType(c.cache.cacheType))
  }

  lemma SearchSectionRejects(c: ConfigSchema)
    requires FirstUnsupported(c.search.engines).Some?
    ensures !Valid(c) && Sub(Dump(c), "search", DefaultSearch, [], ReadSearch) == Err(FirstViolation(c))
  {
    SectionsGet1(DumpApi(c.api), DumpSearch(c.search), DumpScraping(c.scraping), DumpAntiBot(c.antiBot), DumpRateLimiting(c.rateLimiting), DumpMl(c.ml), DumpDatabase(c.database), DumpLogging(c.logging), DumpCache(c.cache), DumpPerformance(c.performance), DumpFeatures(c.features));
    ReadDumpSearchRejects(c.search, [] + ["search"]);
    assert ([] + ["search"]) + ["engines"] == ["search", "engines"];
    SubFails(Dump(c), "search", DefaultSearch, [], ReadSearch, FirstViolation(c));
  }

  lemma CacheSectionRejects(c: ConfigSchema)
    requires c.cache.cacheType !in SupportedCacheTypes && FirstUnsupported(c.search.engines).None?
    ensures !Valid(c) && Sub(Dump(c), "cache", DefaultCache, [], ReadCache) == Err(FirstViolation(c))
  {
    SectionsGet4(DumpApi(c.api), DumpSearch(c.search), DumpScraping(c.scraping), DumpAntiBot(c.antiBot), DumpRateLimiting(c.rateLimiting), DumpMl(c.ml), DumpDatabase(c.database), DumpLogging(c.logging), DumpCache(c.cache), DumpPerformance(c.performance), DumpFeatures(c.features));
    ReadDumpCacheRejects(c.cache, [] + ["cache"]);
    assert ([] + ["cache"]) + ["type"] == ["cache", "type"];
    SubFails(Dump(c), "cache", DefaultCache, [], ReadCache, FirstViolation(c));
  }

  /** An invalid schema's raw form is refused with its first violation. */
  lemma ValidateDumpRejects(c: ConfigSchema)
    requires !Valid(c)
    ensures Validate(Dump(c)) == Err(FirstViolation(c))
  {
    ValidateDumpApiSection(c);
    if FirstUnsupported(c.search.engines).Some? {
      SearchSectionRejects(c);
      ValidateStopsAtSearch(Dump(c), c.api, FirstViolation(c));
    } else {
      ValidateDumpSearchSection(c);
      ValidateDumpScrapingSections(c);
      ValidateDumpMlSections(c);
      CacheSectionRejects(c);
      ValidateStopsAtCache(Dump(c), c, FirstViolation(c));
    }
  }

  /** Validation accepts the raw form of a schema exactly when the schema is valid, and then
      gives the schema back. */
  lemma ValidateDumpIff(c: ConfigSchema)
    ensures Validate(Dump(c)).Ok? <==> Valid(c)
    ensures Valid(c) ==> Validate(Dump(c)) == Ok(c)
  {
    if Valid(c) {
      ValidateDump(c);
    } else {
      ValidateDumpRejects(c);
    }
  }

  // ---------------------------------------------------------------------------
  // Defaults, unknown keys and examples.

  /** An empty section reads as the section's default instance: every field's declared default
      agrees with the section default. */
  lemma EmptySections(loc: Path)
    ensures ReadApi(Dict([]), loc) == Ok(DefaultApi)
    ensures ReadGoogle(Dict([]), loc) == Ok(DefaultGoogle)
    ensures ReadBing(Dict([]), loc) == Ok(DefaultBing)
    ensures ReadSearch(Dict([]), loc) == Ok(DefaultSearch)
    ensures ReadRetry(Dict([]), loc) == Ok(DefaultRetry)
    ensures ReadScroll(Dict([]), loc) == Ok(DefaultScroll)
    ensures ReadScraping(Dict([]), loc) == Ok(DefaultScraping)
    ensures ReadAntiBot(Dict([]), loc) == Ok(DefaultAntiBot)
    ensures ReadRateLimiting(Dict([]), loc) == Ok(DefaultRateLimiting)
    ensures ReadContentExtraction(Dict([]), loc) == Ok(DefaultContentExtraction)
    ensures ReadQueryProcessing(Dict([]), loc) == Ok(DefaultQueryProcessing)
    ensures ReadMl(Dict([]), loc) == Ok(DefaultMl)
    ensures ReadDatabase(Dict([]), loc) == Ok(DefaultDatabase)
    ensures ReadLogging(Dict([]), loc) == Ok(DefaultLogging)
    ensures ReadRedis(Dict([]), loc) == Ok(DefaultRedis)
    ensures ReadFilesystem(Dict([]), loc) == Ok(DefaultFilesystem)
    ensures ReadCache(Dict([]), loc) == Ok(DefaultCache)
    ensures ReadPerformance(Dict([]), loc) == Ok(DefaultPerformance)
    ensures ReadFeatures(Dict([]), loc) == Ok(DefaultFeatures)
  {
  }

  /** With no configuration at all, validation yields the defaults. */
  lemma ValidateEmpty()
    ensures Validate([]) == Ok(Defaults)
  {
  }

  /** The defaults are valid. */
  lemma DefaultsValid()
    ensures Valid(Defaults)
  {
    ValidateEmpty();
  }

  /** Some of the defaults an empty configuration validates to, nested sections included. */
  lemma DefaultValues()
    ensures var d := Validate([]).value;
      d.api.port == 8000 && d.search.engines == ["google", "bing"] && d.cache.cacheType == "memory"
      && d.search.google.country == "us" && d.cache.redis.port == 6379 && d.cache.filesystem.path == ".cache"
  {
    ValidateEmpty();
  }

  /** A successful validation holds, for each section, what that section's reader gave. */
  lemma ValidateParts(raw: Entries)
    requires Validate(raw).Ok?
    ensures Sub(raw, "api", DefaultApi, [], ReadApi) == Ok(Validate(raw).value.api)
    ensures Sub(raw, "search", DefaultSearch, [], ReadSearch) == Ok(Validate(raw).value.search)
    ensures Sub(raw, "scraping", DefaultScraping, [], ReadScraping) == Ok(Validate(raw).value.scraping)
    ensures Sub(raw, "anti_bot", DefaultAntiBot, [], ReadAntiBot) == Ok(Validate(raw).value.antiBot)
    ensures Sub(raw, "rate_limiting", DefaultRateLimiting, [], ReadRateLimiting) == Ok(Validate(raw).value.rateLimiting)
    ensures Sub(raw, "ml", DefaultMl, [], ReadMl) == Ok(Validate(raw).value.ml)
    ensures Sub(raw, "database", DefaultDatabase, [], ReadDatabase) == Ok(Validate(raw).value.database)
    ensures Sub(raw, "logging", DefaultLogging, [], ReadLogging) == Ok(Validate(raw).value.logging)
    ensures Sub(raw, "cache", DefaultCache, [], ReadCache) == Ok(Validate(raw).value.cache)
    ensures Sub(raw, "performance", DefaultPerformance, [], ReadPerformance) == Ok(Validate(raw).value.performance)
    ensures Sub(raw, "features", DefaultFeatures, [], ReadFeatures) == Ok(Validate(raw).value.features)
  {
  }

  /** A section the raw mapping lacks takes its default. */
  lemma ValidateMissingSection(raw: Entries)
    requires Validate(raw).Ok?
    ensures !HasKey(raw, "api") ==> Validate(raw).value.api == DefaultApi
    ensures !HasKey(raw, "search") ==> Validate(raw).value.search == DefaultSearch
    ensures !HasKey(raw, "scraping") ==> Validate(raw).value.scraping == DefaultScraping
    ensures !HasKey(raw, "anti_bot") ==> Validate(raw).value.antiBot == DefaultAntiBot
    ensures !HasKey(raw, "rate_limiting") ==> Validate(raw).value.rateLimiting == DefaultRateLimiting
    ensures !HasKey(raw, "ml") ==> Validate(raw).value.ml == DefaultMl
    ensures !HasKey(raw, "database") ==> Validate(raw).value.database == DefaultDatabase
    ensures !HasKey(raw, "logging") ==> Validate(raw).value.logging == DefaultLogging
    ensures !HasKey(raw, "cache") ==> Validate(raw).value.cache == DefaultCache
    ensures !HasKey(raw, "performance") ==> Validate(raw).value.performance == DefaultPerformance
    ensures !HasKey(raw, "features") ==> Validate(raw).value.features == DefaultFeatures
  {
    ValidateParts(raw);
  }

  /** A supplied field overrides its default; the rest of the section keeps its defaults. */
  lemma ValidatePortOverride()
    ensures Validate([("api", Dict([("port", Int(9001))]))]) == Ok(Defaults.(api := DefaultApi.(port := 9001)))
  {
    var raw := [("api", Dict([("port", Int(9001))]))];
    assert ReadApi(Dict([("port", Int(9001))]), [] + ["api"]) == Ok(DefaultApi.(port := 9001));
    ValidateFrom(raw, Defaults.(api := DefaultApi.(port := 9001)));
  }

  /** Overriding one field of a nested section keeps its siblings and the enclosing section's defaults. */
  lemma ValidateRedisPortOverride()
    ensures Validate([("cache", Dict([("redis", Dict([("port", Int(6380))]))]))])
         == Ok(Defaults.(cache := DefaultCache.(redis := DefaultRedis.(port := 6380))))
  {
    var raw := [("cache", Dict([("redis", Dict([("port", Int(6380))]))]))];
    var redis := Dict([("port", Int(6380))]);
    assert ReadRedis(redis, ["cache", "redis"]) == Ok(DefaultRedis.(port := 6380));
    assert ReadCache(Dict([("redis", redis)]), [] + ["cache"]) == Ok(DefaultCache.(redis := DefaultRedis.(port := 6380)));
    ValidateFrom(raw, Defaults.(cache := DefaultCache.(redis := DefaultRedis.(port := 6380))));
  }

  /** An unsupported engine is reported at `search.engines`, naming the engine. */
  lemma ValidateUnknownEngine()
    ensures Validate([("search", Dict([("engines", List([Str("google"), Str("altavista")]))]))])
         == Err(SchemaError(["search", "engines"], UnsupportedEngine("altavista")))
  {
    var raw := [("search", Dict([("engines", List([Str("google"), Str("altavista")]))]))];
    var e := [("engines", List([Str("google"), Str("altavista")]))];
    assert DumpStrs(["google", "altavista"]) == [Str("google"), Str("altavista")];
    ReadDumpStrs(["google", "altavista"]);
    assert ([] + ["search"]) + ["engines"] == ["search", "engines"];
    assert Field(e, "engines", DefaultEngines, [] + ["search"], AsStrList) == Ok(["google", "altavista"]);
    assert ValidateEngines(["google", "altavista"]) == Err("altavista") by {
      assert ["google", "altavista"][1..] == ["altavista"];
    }
    assert ReadSearch(Dict(e), [] + ["search"]) == Err(SchemaError(["search", "engines"], UnsupportedEngine("altavista")));
    ValidateStopsAtSearch(raw, DefaultApi, SchemaError(["search", "engines"], UnsupportedEngine("altavista")));
  }

  /** The cache type is compared case-sensitively. */
  lemma ValidateCacheTypeCase()
    ensures Validate([("cache", Dict([("type", Str("Redis"))]))])
         == Err(SchemaError(["cache", "type"], UnsupportedCacheType("Redis")))
  {
    var raw := [("cache", Dict([("type", Str("Redis"))]))];
    ValidateCacheTypeExamples();
    assert ([] + ["cache"]) + ["type"] == ["cache", "type"];
    assert ReadCache(Dict([("type", Str("Redis"))]), [] + ["cache"]) == Err(SchemaError(["cache", "type"], UnsupportedCacheType("Redis")));
    ValidateStopsAtCache(raw, Defaults, SchemaError(["cache", "type"], UnsupportedCacheType("Redis")));
  }

  /** A field of the wrong type is reported at its location. */
  lemma ValidateWrongType()
    ensures Validate([("api", Dict([("port", List([]))]))]) == Err(SchemaError(["api", "port"], WrongType))
    ensures Validate([("api", Str("none"))]) == Err(SchemaError(["api"], WrongType))
  {
    assert ([] + ["api"]) + ["port"] == ["api", "port"];
    assert [] + ["api"] == ["api"];
    assert ReadApi(Dict([("port", List([]))]), [] + ["api"]) == Err(SchemaError(["api", "port"], WrongType));
    assert ReadApi(Str("none"), [] + ["api"]) == Err(SchemaError(["api"], WrongType));
  }
}
