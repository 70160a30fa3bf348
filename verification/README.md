# DataProwler configuration resolver in Dafny

This project models how DataProwler's `ConfigManager` builds its configuration, and proves properties of the model.

The configuration is built in three layers:
- the package's default YAML file;
- the first user file found, deep-merged over the defaults;
- every `DATAPROWLER_`-prefixed environment variable, coerced to a scalar and written at the nested key path its name spells.

The raw mapping is cached on first access. The Pydantic `ConfigSchema` validated from it is cached separately. `reload` drops both caches and loads again. `get_setting` reads a dotted path out of the cached mapping, and falls back to the caller's default.

The modules follow the source:

| module | file | models |
|---|---|---|
| `Values` | values.dfy | YAML values and Python dicts: ordered association lists; `Put` is `d[k] = v` |
| `Strings` | strings.dfy | `str.split`, ASCII `lower`/`isdigit`, `replace`, `count` |
| `Paths` | paths.dfy | the nested-key navigation shared by `unflatten_dict` and `_load_env_vars` |
| `DeepMerge` | deep_merge.dfy | `deep_merge` |
| `DictPaths` | dict_paths.dfy | `flatten_dict`, `unflatten_dict` |
| `EnvOverlay` | env_overlay.dfy | `_load_env_vars`: value coercion and key paths |
| `Schema` | schema.dfy | every section of `ConfigSchema`, its defaults, and the two field validators |
| `ConfigManager` | config_manager.dfy | file probing, `load_config`, the two caches, `reload`, `get_setting` |

Everything the manager reads from the process is one `Host` value:
- the environment, as an ordered list of name/value pairs;
- the package, working and home directories;
- a map from every existing path to what reading it yields.

Each manager operation takes a `Manager` (the two caches) and a `Host`. It returns the next `Manager` together with its result. An exception becomes an `Err`:
- `PathError` when an environment variable's key path runs through a value that is not a mapping. In Python this is a `TypeError`.
- `SchemaError` when validation fails. In Python this is a `ValidationError`.

Two behaviours of the code are worth knowing.

The `DATAPROWLER_CONFIG` variable is prefixed, so `_load_env_vars` also writes it into the configuration, under the key `config`. It is not excluded from the overlay; the model follows the code here (`EnvOverlay.LoadEnvVarsConfig`).

A variable name is split at every underscore. `DATAPROWLER_RATE_LIMITING_ENABLED` therefore writes `rate.limiting.enabled`, not `rate_limiting.enabled`. No field whose name contains an underscore can be set from the environment (`EnvOverlay.KeyPathCollision`).

## Model

| member | source | states |
|---|---|---|
| Values.Get | dataprowler/utils/helpers.py:25 | `k in d` and `d[k]`: a value is found exactly when the key is present |
| Values.Put | dataprowler/utils/helpers.py:30 | `d[k] = v`: the key reads back `v` and every other key reads what it read before |
| Values.PutPut | dataprowler/core/config.py:124 | a second assignment to the same key replaces the first in place, as if only the second had happened |
| Values.PutSame | dataprowler/utils/helpers.py:30 | assigning the value a key already holds leaves the mapping unchanged |
| Values.PutWellFormed | dataprowler/utils/helpers.py:30 | assignment never produces a repeated key at any level |
| Values.GetAppend | dataprowler/utils/helpers.py:25 | lookup in a concatenation: the first part answers when it holds the key, the second otherwise |
| Strings.Split | dataprowler/core/config.py:180 | `str.split(sep)` gives at least one part, no part contains the separator, and joining the parts gives the string back |
| Strings.SplitJoin | dataprowler/core/config.py:180 | splitting the join of separator-free parts gives the parts back |
| Strings.Lower | dataprowler/core/config.py:106 | `lower()` keeps the length, leaves no upper-case letter, moves each upper-case letter to its lower-case partner and keeps every other character |
| Strings.LowerIdempotent | dataprowler/core/config.py:106 | lowering twice is lowering once |
| Strings.LowerFixed | dataprowler/core/config.py:106 | a string with no upper-case letter is its own lower-case form |
| Strings.DecimalRoundTrip | dataprowler/core/config.py:109-110 | `int()` of a number's decimal digits gives the number back |
| Strings.Remove | dataprowler/core/config.py:113 | `replace(".", "")` leaves no dot, and its length drops by the number of dots |
| Strings.RemoveAppend | dataprowler/core/config.py:113 | removal and counting work piece by piece over a concatenation |
| Strings.RemoveAbsent | dataprowler/core/config.py:113 | a string without the character is left unchanged and counts none |
| Strings.RemoveOne | dataprowler/core/config.py:113 | a single character is dropped if it is the removed one and kept otherwise; with `RemoveAppend` this fixes the result as the string with only the other characters, in order |
| Paths.Chain | dataprowler/core/config.py:118-124 | the chain of new mappings created under a missing key reaches the value at the path |
| Paths.SetPath | dataprowler/core/config.py:116-124 | after navigation and assignment the path reads the value; a failure names a proper prefix of the path that holds a non-mapping |
| Paths.SetPathOkIff | dataprowler/core/config.py:116-124 | the assignment succeeds if and only if no proper prefix of the path holds a non-mapping |
| Paths.SetPathFrame | dataprowler/core/config.py:116-124 | a path that is neither a prefix nor an extension of the written path reads what it read before |
| Paths.SetPathMappings | dataprowler/core/config.py:119-121 | after the assignment every proper prefix of the path holds a mapping |
| Paths.SetPathCreates | dataprowler/core/config.py:119-120 | where a prefix was missing, the assignment creates fresh nested mappings down to the value |
| Paths.SetPathWellFormed | dataprowler/core/config.py:116-124 | navigation and assignment keep every mapping free of repeated keys |
| Paths.SetAll | dataprowler/utils/helpers.py:75-82 | a sequence of writes: the last write reads back; a failure names a proper prefix of one write's path |
| Paths.SetAllAppend | dataprowler/utils/helpers.py:75-82 | writing `a + b` is writing `a` and then `b`, and a failure in `a` stops everything |
| Paths.SetAllFrame | dataprowler/core/config.py:104-124 | a path unrelated to every written path is untouched by the whole sequence |
| Paths.SetAllSurvivor | dataprowler/core/config.py:104-124 | a write that no later write lies on one line with is read back at its path |
| Paths.SetAllWellFormed | dataprowler/core/config.py:104-124 | a sequence of writes keeps every mapping free of repeated keys |
| Paths.SetAllFails | dataprowler/core/config.py:116-124 | a failing sequence has a write that found, after the writes before it succeeded, a non-mapping on a proper prefix of its path; that prefix is the reported location |
| Paths.SetAllOkIff | dataprowler/core/config.py:104-124 | a sequence succeeds if and only if each write finds no non-mapping on a proper prefix of its path in the state the earlier writes left |
| Paths.SetAllOpen | dataprowler/core/config.py:104-124 | in a sequence that succeeds, every earlier prefix succeeds and each write's path was open |
| Paths.SetAllClosed | dataprowler/core/config.py:116-124 | a failing sequence has a write whose path was not open when its turn came |
| Paths.SetPathKeepsOpen | dataprowler/core/config.py:116-124 | an assignment keeps open every path it is not a proper prefix of |
| Paths.SetAllOkWhen | dataprowler/core/config.py:104-124 | a sequence succeeds when no write's path is a proper prefix of another's and none runs through a non-mapping of the starting mapping |
| DeepMerge.Merge | dataprowler/utils/helpers.py:8-32 | the merge holds the union of both key sets; base keys keep their positions; distinct keys stay distinct |
| DeepMerge.MergeGet | dataprowler/utils/helpers.py:24-30 | per key: the base value when the overlay lacks the key, the recursive merge when both hold mappings, the overlay value otherwise |
| DeepMerge.MergeIntoEmpty | dataprowler/utils/helpers.py:22-32 | merging into an empty mapping gives the overlay, order included |
| DeepMerge.MergeAbsorbed | dataprowler/utils/helpers.py:22-32 | an overlay whose every entry the base already holds changes nothing |
| DeepMerge.MergeIdempotent | dataprowler/utils/helpers.py:22-32 | merging a mapping with itself gives it back |
| DeepMerge.MergeIdentities | dataprowler/utils/helpers.py:22-32 | the empty mapping is a left and right identity, and the merge is idempotent |
| DeepMerge.MergeWellFormed | dataprowler/utils/helpers.py:22-32 | merging mappings without repeated keys gives one without repeated keys |
| DeepMerge.MergeWalkOverlay | dataprowler/utils/helpers.py:28-30 | where the overlay holds a non-mapping at any depth, the merge holds exactly that value |
| DeepMerge.MergeWalkBase | dataprowler/utils/helpers.py:22-27 | where the overlay says nothing about a path, the merge reads what the base reads |
| DeepMerge.MergeExamples | dataprowler/utils/helpers.py:12-13 | nested mappings under one key are merged, while a scalar replaces a mapping outright |
| EnvOverlay.Coerce | dataprowler/core/config.py:108-114 | a value becomes an integer exactly when it is all digits; a string or float keeps the variable's text |
| EnvOverlay.CoerceTable | dataprowler/core/config.py:108-114 | the case table: digits give their number; a boolean if and only if the text lowers to `true` or `false`, and it is the word's truth; a float if and only if the text is one dot among digits with at least one digit; a string otherwise |
| EnvOverlay.CoerceFloatIff | dataprowler/core/config.py:113-114 | the float test, digits once the dot is removed and exactly one dot, accepts exactly the texts that are one dot among at least one digit |
| EnvOverlay.PointFromRemove | dataprowler/core/config.py:113 | a text with one dot that is all digits once the dot is removed has its dot at one position and digits everywhere else |
| EnvOverlay.CoerceRender | dataprowler/core/config.py:108-114 | coercing the text of a coerced value gives the same value back |
| EnvOverlay.CoerceDecimal | dataprowler/core/config.py:109-110 | the decimal text of a natural number coerces to that integer |
| EnvOverlay.CoerceBool | dataprowler/core/config.py:111-112 | `true`/`false` in any letter case coerce to the boolean |
| EnvOverlay.CoerceFloatWhen | dataprowler/core/config.py:113-114 | digits, one dot and digits, not both sides empty, coerce to a float |
| EnvOverlay.CoerceStrWhen | dataprowler/core/config.py:108-114 | text that starts with neither a digit, a dot, `t` nor `f` stays a string |
| EnvOverlay.CoerceIntExamples | dataprowler/core/config.py:109-110 | `30` gives 30 and `007` gives 7 |
| EnvOverlay.CoerceBoolExamples | dataprowler/core/config.py:111-112 | `FALSE` gives false and `True` gives true |
| EnvOverlay.CoerceFloatExamples | dataprowler/core/config.py:113-114 | `1.5`, `1.` and `.5` are floats |
| EnvOverlay.CoerceStrExamples | dataprowler/core/config.py:108-114 | the empty text, `-5`, `1.2.3`, `.` and `yes` stay strings |
| EnvOverlay.KeyPath | dataprowler/core/config.py:106 | the key path is non-empty, no part holds an underscore, and the parts joined by underscores give the lowered name after the prefix |
| EnvOverlay.KeyPathEnvName | dataprowler/core/config.py:96-99 | a lower-case key path without underscores comes back from the variable name spelled for it |
| EnvOverlay.KeyPathIgnoresCase | dataprowler/core/config.py:106 | names that differ only in letter case after the prefix give the same key path |
| EnvOverlay.KeyPathScraping | dataprowler/core/config.py:99 | `DATAPROWLER_SCRAPING_TIMEOUT` gives `scraping.timeout` |
| EnvOverlay.KeyPathCollision | dataprowler/core/config.py:106 | the key paths `a.b_c` and `a.b.c` spell the same variable name, which reads back as `a.b.c` |
| EnvOverlay.KeyPathConfig | dataprowler/core/config.py:104-106 | `DATAPROWLER_CONFIG` gives the key `config`, and the bare prefix gives the empty key |
| EnvOverlay.EnvWrites | dataprowler/core/config.py:104-114 | at most one write per variable, each at a non-empty path and each a scalar |
| EnvOverlay.EnvWritesAppend | dataprowler/core/config.py:104 | the writes of a concatenated environment are the writes of each part in order |
| EnvOverlay.EnvWritesOrigin | dataprowler/core/config.py:104-106 | every write's path is the key path of some prefixed variable |
| EnvOverlay.LoadEnvVars | dataprowler/core/config.py:92-126 | without prefixed variables the mapping comes back unchanged; a failure names a proper prefix of some variable's key path |
| EnvOverlay.EnvWritesAt | dataprowler/core/config.py:104-114 | each write is some prefixed variable's, and the variables before it make exactly the writes before it |
| EnvOverlay.LoadEnvVarsFails | dataprowler/core/config.py:116-124 | a failure comes from a prefixed variable that found, after the variables before it were applied, a non-mapping on a proper prefix of its key path; that prefix is reported |
| EnvOverlay.LoadEnvVarsOkWhen | dataprowler/core/config.py:104-124 | the overlay succeeds when no prefixed variable's key path is a proper prefix of another's and none runs through a non-mapping of the configuration |
| EnvOverlay.LoadEnvVarsWins | dataprowler/core/config.py:104-124 | a variable that no later prefixed variable lies on one line with is read back, coerced, at its key path |
| EnvOverlay.LoadEnvVarsFrame | dataprowler/core/config.py:101-124 | paths that are unrelated to every variable's key path keep their values |
| EnvOverlay.LoadEnvVarsWellFormed | dataprowler/core/config.py:101-126 | the overlay keeps every mapping free of repeated keys |
| EnvOverlay.LoadEnvVarsScraping | dataprowler/core/config.py:96-99 | `DATAPROWLER_SCRAPING_TIMEOUT=30` becomes `{scraping: {timeout: 30}}` |
| EnvOverlay.LoadEnvVarsCache | dataprowler/core/config.py:104-112 | a boolean variable lands at its section, and an unprefixed variable is ignored |
| EnvOverlay.LoadEnvVarsConfig | dataprowler/core/config.py:104-124 | the `DATAPROWLER_CONFIG` variable itself is written under the key `config` |
| DictPaths.FromPairs | dataprowler/utils/helpers.py:57 | `dict(items)` has distinct keys, and no mapping values when the items have none |
| DictPaths.FromPairsGet | dataprowler/utils/helpers.py:57 | for a repeated key, the last pair wins |
| DictPaths.FromPairsDistinct | dataprowler/utils/helpers.py:57 | pairs with distinct keys come back unchanged, order included |
| DictPaths.Flatten | dataprowler/utils/helpers.py:35-57 | the flat mapping has distinct keys and no mapping values |
| DictPaths.Leaves | dataprowler/utils/helpers.py:51-56 | the leaves of a nested mapping: non-empty key paths to non-mapping values |
| DictPaths.LeavesWalk | dataprowler/utils/helpers.py:51-56 | every leaf's path reads the leaf's value in the nested mapping |
| DictPaths.LeavesFacts | dataprowler/utils/helpers.py:51-56 | in a safe mapping, leaf paths are distinct and made of non-empty, separator-free keys |
| DictPaths.FlattenLeaves | dataprowler/utils/helpers.py:50-57 | flattening a safe mapping gives each leaf keyed by its path joined with the separator |
| DictPaths.FlattenItemsLeaves | dataprowler/utils/helpers.py:50-56 | the collected items are the leaves, in order, keyed under the parent key |
| DictPaths.SplitKeys | dataprowler/utils/helpers.py:76 | one write per flat key: its parts hold no separator and, joined by the separator, give the key back; values are kept |
| DictPaths.Unflatten | dataprowler/utils/helpers.py:60-83 | the last flat key's path reads its value; a failure names a proper prefix of some key's path |
| DictPaths.SetAllLeaves | dataprowler/utils/helpers.py:74-83 | rebuilding from a safe mapping's leaves appends exactly that mapping |
| DictPaths.UnflattenFlatten | dataprowler/utils/helpers.py:35-83 | unflattening the flattening of a safe mapping gives the mapping back, order included |
| DictPaths.UnflattenLastWins | dataprowler/utils/helpers.py:75-82 | a flat key that no later key lies on one line with is read back at its path |
| DictPaths.FlattenDocExample | dataprowler/utils/helpers.py:40 | `{a: {b: 1, c: 2}}` becomes `{a.b: 1, a.c: 2}` |
| DictPaths.UnflattenDocExample | dataprowler/utils/helpers.py:65 | `{a.b: 1, a.c: 2}` becomes `{a: {b: 1, c: 2}}` |
| DictPaths.FlattenQuirks | dataprowler/utils/helpers.py:52-54 | an empty nested mapping vanishes, and an empty parent key adds no separator |
| DictPaths.UnflattenOverwrites | dataprowler/utils/helpers.py:82 | a later scalar key replaces the mapping an earlier key built |
| DictPaths.UnflattenFails | dataprowler/utils/helpers.py:78-81 | navigating through an earlier scalar fails at that key |
| Schema.FirstUnsupported | dataprowler/core/settings/schema.py:41-43 | the position of the first unsupported engine, or none if and only if all are supported |
| Schema.ValidateEngines | dataprowler/core/settings/schema.py:37-44 | accepts if and only if every engine is supported, returning the list unchanged; otherwise reports the first offender |
| Schema.ValidateCacheType | dataprowler/core/settings/schema.py:138-144 | accepts if and only if the type is memory, redis or filesystem, returning it unchanged; otherwise reports it |
| Schema.ValidateEnginesExamples | dataprowler/core/settings/schema.py:37-44 | empty and repeated lists pass; the check stops at the first unsupported engine |
| Schema.ValidateCacheTypeExamples | dataprowler/core/settings/schema.py:138-144 | the check is case-sensitive, and the empty type fails |
| Schema.DefaultsPassValidators | dataprowler/core/settings/schema.py:31 | the default engines and the default cache type pass their own validators |
| Schema.StrItems | dataprowler/core/settings/schema.py:62 | `List[str]` accepts if and only if every item is a string, keeping every item |
| Schema.IntItems | dataprowler/core/settings/schema.py:50 | `List[int]` accepts if and only if every item is an integer, keeping every item |
| Schema.IntEntries | dataprowler/core/settings/schema.py:89 | `Dict[str, int]` accepts if and only if every value is an integer, keeping every entry |
| Schema.Field | dataprowler/core/settings/schema.py:12-16 | an absent field takes its default; a present one is accepted if and only if it has the field's type; a refusal names the field's location |
| Schema.ReadEngines | dataprowler/core/settings/schema.py:31-44 | accepted engines are all supported |
| Schema.ReadSearch | dataprowler/core/settings/schema.py:29-44 | an accepted search section has only supported engines |
| Schema.ReadCacheType | dataprowler/core/settings/schema.py:132-144 | an accepted cache type is supported |
| Schema.ReadCache | dataprowler/core/settings/schema.py:129-144 | an accepted cache section has a supported type |
| Schema.Validate | dataprowler/core/settings/schema.py:158-170 | an accepted configuration satisfies both validators |
| Schema.ValidateDump | dataprowler/core/settings/schema.py:158-170 | validating the raw form of a schema that satisfies both validators gives the schema back |
| Schema.ValidateDumpRejects | dataprowler/core/settings/schema.py:37-44 | validating the raw form of a schema that breaks a validator reports the first violation |
| Schema.ValidateDumpIff | dataprowler/core/settings/schema.py:158-170 | the raw form of a schema validates if and only if the schema satisfies both validators |
| Schema.EmptySections | dataprowler/core/settings/schema.py:10-156 | an empty section gives every field its declared default |
| Schema.ValidateEmpty | dataprowler/core/settings/schema.py:158-170 | an empty configuration gives the all-defaults schema |
| Schema.DefaultsValid | dataprowler/core/settings/schema.py:31 | the all-defaults schema satisfies both validators |
| Schema.DefaultValues | dataprowler/core/settings/schema.py:10-136 | defaults: port 8000, engines google and bing, cache memory, country us, Redis port 6379, cache path `.cache` |
| Schema.ValidateParts | dataprowler/core/settings/schema.py:158-170 | an accepted configuration is section by section what each section's reader accepted |
| Schema.ValidateMissingSection | dataprowler/core/settings/schema.py:158-170 | a missing section takes its default |
| Schema.ValidatePortOverride | dataprowler/core/settings/schema.py:10-16 | one field given, every other field keeps its default |
| Schema.ValidateIgnoresUnknown | dataprowler/core/settings/schema.py:158-170 | an entry appended under a key that names no section leaves the outcome of validation as it was |
| Schema.FieldIgnoresOther | dataprowler/core/settings/schema.py:10-16 | a field reads the same whatever other keys its section holds |
| Schema.ReadApiIgnoresUnknown | dataprowler/core/settings/schema.py:10-16 | an entry appended to the `api` section under a key that names none of its fields changes nothing |
| Schema.ValidateUnknownKeys | dataprowler/core/settings/schema.py:158-170 | the `config` key and the `rate.limiting.enabled` path that the overlay writes are dropped, and every setting keeps its default |
| Schema.ValidateRedisPortOverride | dataprowler/core/settings/schema.py:119-136 | a nested field given two levels down, everything else default |
| Schema.ValidateUnknownEngine | dataprowler/core/settings/schema.py:37-44 | an unknown engine is refused at `search.engines` |
| Schema.ValidateCacheTypeCase | dataprowler/core/settings/schema.py:138-144 | `Redis` is refused at `cache.type` |
| Schema.ValidateWrongType | dataprowler/core/settings/schema.py:13 | a field or a section of the wrong type is refused at its location |
| Schema.ValidateStopsAtSearch | dataprowler/core/settings/schema.py:158-161 | a refused search section is the reported error once the api section passes |
| Schema.ValidateStopsAtCache | dataprowler/core/settings/schema.py:158-167 | a refused cache section is the reported error once every earlier section passes |
| ConfigManager.EnvLookup | dataprowler/core/config.py:64-65 | a value is found if and only if the variable is set, and it is that variable's value |
| ConfigManager.EnvLookupDistinct | dataprowler/core/config.py:64-65 | when no name occurs twice, as in `os.environ`, the lookup gives each variable's own value |
| ConfigManager.FirstExisting | dataprowler/core/config.py:63-79 | no path if and only if none of the candidates exists; otherwise the first candidate that exists |
| ConfigManager.UserConfigPath | dataprowler/core/config.py:54-79 | a user file path, when found, exists |
| ConfigManager.UserConfigPathProbeOrder | dataprowler/core/config.py:54-79 | the variable's path if it exists, else the working directory's file, else the home directory's file, else none |
| ConfigManager.LoadConfig | dataprowler/core/config.py:128-151 | without prefixed variables the result is the user file merged over the defaults; a failure names a proper prefix of some variable's key path |
| ConfigManager.LoadConfigEnvWins | dataprowler/core/config.py:132-133 | an environment variable beats both files at its key path |
| ConfigManager.LoadConfigUserWins | dataprowler/core/config.py:134-145 | the user file beats the defaults wherever the environment is silent |
| ConfigManager.LoadConfigDefaultShows | dataprowler/core/config.py:135-145 | the defaults show through wherever the user file and the environment are silent |
| ConfigManager.LoadConfigWithoutUserFile | dataprowler/core/config.py:81-90 | a missing, unreadable or empty user file contributes nothing |
| ConfigManager.LoadConfigWellFormed | dataprowler/core/config.py:128-151 | the loaded configuration has no repeated keys at any level |
| ConfigManager.Check | dataprowler/core/config.py:153-163 | an accepted schema is what validation gave and satisfies both validators; load and validation failures pass through |
| ConfigManager.FreshCoherent | dataprowler/core/config.py:31-33 | a new manager's empty caches agree with any host |
| ConfigManager.LoadConfigOp | dataprowler/core/config.py:128-151 | loads, caches the mapping on success, leaves the schema cache alone, and caches nothing on failure |
| ConfigManager.Config | dataprowler/core/config.py:36-41 | a cached mapping is returned as is; otherwise the configuration is loaded and cached; caches stay coherent |
| ConfigManager.ConfigModel | dataprowler/core/config.py:43-48 | a cached schema is returned as is, with nothing changed; otherwise gives the validated configuration and caches it; a failed validation caches no schema |
| ConfigManager.Reload | dataprowler/core/config.py:165-169 | reloads from scratch whatever the caches held; the schema cache is empty afterwards; a successful load is cached, a failed one leaves both caches empty |
| ConfigManager.GetSetting | dataprowler/core/config.py:171-187 | reads the dotted path in the loaded configuration, or gives the default; a load failure passes through |
| ConfigManager.ConfigIgnoresHost | dataprowler/core/config.py:39-41 | once the mapping is cached, later changes to files or environment are invisible to `config` and to `get_setting` at every path |
| ConfigManager.ConfigIdempotent | dataprowler/core/config.py:36-41 | a second access to `config` returns the same thing and changes nothing |
| ConfigManager.ConfigModelIdempotent | dataprowler/core/config.py:43-48 | a second access to `config_model` returns the same thing and changes nothing |
| ConfigManager.GetSettingSeesEnv | dataprowler/core/config.py:171-187 | the dotted form of a variable's key path reads the variable's coerced value |
| ConfigManager.GetSettingDefault | dataprowler/core/config.py:182-185 | a path the configuration does not reach gives the caller's default |
| ConfigManager.GetSettingAt | dataprowler/core/config.py:178-187 | a new manager reads what the loaded configuration holds at the path |
| ConfigManager.NoFilesScenario | dataprowler/core/config.py:81-90 | with no files and no variables, settings fall back to the caller's default and the schema is all defaults |
| ConfigManager.UserFileScenario | dataprowler/core/config.py:138-145 | a working-directory file overrides one default and keeps its sibling |
| ConfigManager.EnvScenario | dataprowler/core/config.py:96-99 | `DATAPROWLER_SCRAPING_TIMEOUT=30` beats a user file's `scraping.timeout: 10` |

## Left out

- YAML parsing and the file system: a file is what reading it yields (`Unreadable`, `EmptyDocument` or a mapping). A YAML document whose top level is a list or a scalar is not modelled.
- Path normalisation: paths are plain strings, and `Path` joins are string concatenation with `/`.
- The process environment, working directory and home directory are fields of `Host`.
- The environment is a sequence of (name, value) pairs, so a name can occur twice, which `os.environ` cannot hold. With a repeated name, `EnvLookup` (for `DATAPROWLER_CONFIG`) sees the first value while the overlay applies the last. No lemma depends on such an environment. `ConfigManager.EnvLookupDistinct` shows that both agree when names are distinct.
- Logging, the `_loaded_files` list and `__str__` are not modelled. They affect only diagnostics.
- The module-level singleton and the module-level `get_setting` are not modelled. They are the same operations on one shared manager.
- Concurrency is not modelled; the source has none.
- Aliasing is not modelled: `dict.copy()` is shallow, and `get_setting` returns the cached objects themselves, which a caller could mutate. The model is purely functional.
- Schema.Validate: fields take values of exactly their type. Pydantic's lax coercions are not modelled. Examples are the string `"80"` for an `int`, `80.0` for an `int`, and `"yes"` for a `bool`. The model refuses values that Pydantic would accept.
- Schema.Validate: only the first failure, in declaration order, is reported. Pydantic collects every failure into one `ValidationError`.
- Schema.Validate: unknown keys are ignored, as Pydantic's default does. `Schema.ValidateIgnoresUnknown` proves it for every top-level key that names no section. `Schema.ReadApiIgnoresUnknown` proves it inside the `api` section. `Schema.FieldIgnoresOther` gives the step every section reader takes. No lemma states it section by section for the other sections.
- `DomainRateLimits` is declared but never used by any section, so it is not modelled. Its `__root__` field is the Pydantic v1 spelling of a root model; Pydantic v2, which the rest of the schema is written for, refuses that field name when the class is defined, so importing the schema module fails as written. This is a reading of the source, not an observation.
- Floats are kept as their decimal text; floating-point arithmetic and rounding are not modelled.
- `isdigit` and `lower` are modelled on ASCII only. Python's Unicode digits and case mappings are not.
- EnvOverlay.Coerce: any run of digits becomes an integer, however long. CPython 3.11 and later refuses, by default, to convert a string of more than 4300 digits with `int()`, and raises `ValueError`. Nothing in `_load_env_vars` or `load_config` catches that error, so `config`, `config_model` and `get_setting` would raise. The model has no such error: `EnvOverlay.CoerceTable`, `EnvOverlay.CoerceDecimal`, `EnvOverlay.LoadEnvVarsOkWhen` and the loading lemmas built on them promise success for such a value. The limit is an interpreter setting (`sys.set_int_max_str_digits`), not part of the program.
- `flatten_dict` and `unflatten_dict`: the model takes a single-character separator. `flatten_dict` accepts any separator string. `unflatten_dict` accepts any non-empty one; with `sep=""`, `key.split(sep)` raises `ValueError`, an error path the model does not have.
- `model_dump` is modelled as `Schema.Dump`, the raw form used as the partner of `Schema.Validate`.
