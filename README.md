# ling-server core in Dafny

This project models the core of the Go repository `ling-server/core` and proves
properties of the model. It covers these parts:

- **cache**: the `Cache` backend contract, the factory registry (`Register`, `New`),
  the bootstrap `Initialize` with its retried ping, and `Default`. Also the functional
  options (`Options.Key`, `newOptions` and the setters), the per-key lock table
  `keyMutex`, URL redaction, and the fetch-or-save coordinator `FetchOrSave`.
- **retry**: option defaulting, the `Abort` wrapper, and the retry loop with its deadline,
  callback and backoff.
- **urllib**: the HTTP `Link` header: `ParseLinks`, `Link.String` and `Links.String`.
  The parser does not follow the quoting rules of section 3 of RFC 8288. It splits at
  every `,` and `;`, as the code does.
- **orm**: the `Query` record, with `New`, `First` and `MustClone`. The query setter
  (`setFilters`, `setSorts`, pagination) and the count variant. The raw-SQL pagination
  helper.
- **config**:
  - the item types of `metadata/type.go`, with their `validate` and `get`
  - the item table `ConfigMetaData` and its singleton
  - the typed accessors of `ConfigureValue`
  - the registry of configuration managers
- **log**: `Level.string` and `parseLevel`.
- **strlib**: `Truncate`, `TrimLineBreaks` and the random-string generator.

Modules and files:

| module | file |
|---|---|
| `Wrappers` | `wrappers.dfy`: `Option` and `Result` |
| `Errors` | `errors.dfy`: the error values, and the walks `errors.Is` and `errors.As` make along a wrap chain |
| `GoStrings` | `gostrings.dfy`: the Go `strings` functions the core calls |
| `StrConv` | `strconv.dfy`: decimal parsing as `strconv` does it |

Each other module follows one package of the source.

Objects the source updates in place are classes:
- `Store` (a cache backend) and `Destination` (the `interface{}` a Fetch decodes into)
- `KeyMutex`
- `Registry` (the factory table and the published default cache)
- `Query`
- `ConfigMetaData` and `MetaDataHolder`
- `ConfigureValue`
- `Managers`

Everything else is values and functions. Loops in the source are methods with loop
invariants:

| method | source loop |
|---|---|
| `CacheOption.NewOptions` | applies the setters |
| `Retry.Configure` | applies the setters |
| `Retry.Retry` | the retry loop |
| `UrlLib.ParseLinks` | walks the segments and attributes |
| `UrlLib.LinkString`, `UrlLib.LinksString` | build the text |
| `ConfigMetadata.ConfigMetaData.InitFromArray` | fills the table |
| `ConfigMetadata.ConfigMetaData.GetAll` | lists the table |
| `OrmQuery.CopyKeywords` | the keyword copy in `MustClone` |
| `OrmQuery.SetSorts` | collects the sortings |
| `OrmQuery.SetFilters` | visits the keywords |
| `StrLib.GenerateRandomStringWithLen` | maps the random bytes |

Each method is proved against a specification function. The properties of that function
are proved as lemmas.

Go's `range` over a map visits keys in an unspecified order. The model makes that
order a ghost out-parameter. `GoStrings.Enumerates` says it lists every key exactly once.
Properties that must not depend on the order are proved for every such order:
- `LinkRoundTrip.LinksRoundTrip`
- `OrmQuery.KeywordOrderIrrelevant`
- `ConfigMetadata.ConfigMetaData.GetAll`

I/O, clocks and code outside the core are parameters:

| source | in the model |
|---|---|
| a backend's stored data and failures | the `Store` fields `data`, `fetchFaults` and `saveFault` |
| `time.After(timeout)` | a `budget`: the number of loop iterations that start before the timer fires |
| backoff `Duration()` values | an oracle `durations` |
| the codec | a `Codec` record of two functions |
| JSON decoding | a `Json` record |
| `url.Parse` and `URL.String` | function parameters |
| crypto/rand | the bytes it wrote |
| reflection on the ORM model | `isPointer` and `elemName` |
| `parseModel` | a `Meta` record |
| `snakeCase` and `Escape` | function parameters |
| the ORM query setter | the list of calls (`Op`) made on it |

## Model

| member | source | states |
|---|---|---|
| Errors.FindAbort | retry/retry.go:122-125 | errors.As for *abort: an abort at the head of the chain gives its cause; a sentinel, text or number error gives none |
| Errors.WrapKeepsNotFound | cache/helper.go:29 | however many times the not-found sentinel is wrapped, errors.Is still finds it |
| Errors.WrapKeepsAbort | retry/retry.go:122-125 | wrapping an abort any number of times leaves the abort and its cause visible to errors.As |
| Cache.Lookup | cache/cache.go:32 | a Fetch succeeds exactly when no fault is injected and the key is stored, and then yields the stored value; a missing key is NotFound, an injected fault is returned as it is |
| Cache.Store.Fetch | cache/cache.go:32 | the destination receives the stored value on a hit and is untouched otherwise; one injected fault is consumed |
| Cache.Store.Save | cache/cache.go:34 | the value is stored under the key unless the save fails, in which case the stored data is unchanged |
| Cache.BuildOptions | cache/cache.go:51-52 | New hands the factory the setters' options with the codec replaced by the package default |
| Cache.InitializeSettings | cache/cache.go:70-87 | Initialize builds its cache with exactly the given address, prefix "cache:", expiration 0 and the default codec, and pings with 500ms initial and 10s maximum backoff, a one-minute timeout and a callback |
| Cache.Registry.Register | cache/cache.go:43-48 | the factory replaces any earlier one of its type; New for that type now calls it, New for every other type is unchanged |
| Cache.Registry.New | cache/cache.go:50-63 | an unregistered type fails with "Cache type <t> not support"; otherwise the factory's own result on the built options |
| Cache.Registry.Initialize | cache/cache.go:69-97 | a failing New is returned with no ping; otherwise the result and callback notices are those of the retry loop over Ping, and the cache is published exactly when the retry succeeds; the logged address is redacted when it parses as a URL |
| Cache.Registry.Default | cache/cache.go:99-101 | the cache last published by Initialize |
| Cache.InitializePublishes | cache/cache.go:89-96 | a cache whose first ping succeeds becomes the default |
| Cache.InitializeTimesOut | cache/cache.go:89-93 | a cache whose ping never succeeds leaves the default unchanged, returns the wrapped retry timeout and logs one notice per attempt |
| CacheOption.Key | cache/option.go:14-16 | the key is the prefix followed by the key; with no prefix it is the key itself |
| CacheOption.KeyInjective | cache/option.go:14-16 | two different keys never map to the same prefixed key |
| CacheOption.Apply | cache/option.go:29-47 | each setter changes its own field and leaves the other three alone |
| CacheOption.NewOptions | cache/option.go:18-26 | the options are the setters applied in order to the zero options |
| CacheOption.LastSetterWins | cache/option.go:18-47 | each field holds the value of the last setter that names it, or its zero value when none does |
| CacheUtil.KeyMutex.Lock | cache/util.go:24-33 | on a free key a fresh mutex is stored under the key and locked; the key becomes held and nothing else changes |
| CacheUtil.KeyMutex.Unlock | cache/util.go:35-43 | the key's entry is deleted and then its mutex is released; every other entry is kept |
| CacheUtil.LockUnlock | cache/util.go:24-43 | a Lock/Unlock pair leaves the table and the held mutexes exactly as they were |
| CacheUtil.RedactUrl | cache/util.go:13-16 | a present password becomes "xxxxx"; the username and the rest of the URL are kept; a URL without a password is unchanged |
| CacheUtil.Redacted | cache/util.go:8-18 | a nil URL renders as "" |
| CacheUtil.PasswordHidden | cache/util.go:8-18 | two URLs that differ only in their passwords render alike, and redacting twice is redacting once |
| CacheHelper.LockKeyInjective | cache/helper.go:34 | different (cache, key) pairs get different lock keys, so distinct caches never share a lock |
| CacheHelper.ProtocolCases | cache/helper.go:20-69 | a first hit returns with no lock and no build; an internal error is returned at once; the lock is taken exactly on a not-found miss; the builder runs only after a second miss; only a successful save writes the store; a failed save falls back to the codec |
| CacheHelper.FetchOrSaveTo | cache/helper.go:20-69 | the store, the destination and the result follow the protocol, and the key lock is released on every return |
| CacheHelper.WithKeyLock | cache/helper.go:34-69 | the lock is taken and released once, leaving the table as it was, and the part under the lock follows the protocol's locked branch |
| CacheHelper.FetchOrSave | cache/helper.go:20-68 | the coordinator with the final Fetch into the caller's destination (corrected) |
| CacheHelper.FetchOrSaveAsWritten | cache/helper.go:20-69 | the coordinator as written: the final Fetch decodes into the built value |
| CacheHelper.CallerSeesCachedValue | cache/helper.go:20-68 | with a fault-free store, success leaves the key cached and the caller holding that value, and a second call builds nothing |
| CacheHelper.AsWrittenLosesBuiltValue | cache/helper.go:54-68 | as written, an empty store and a successful build and save report success but leave the destination empty; the corrected call delivers the value |
| Retry.WithDefaults | retry/retry.go:87-97 | a positive initial interval, maximum interval and timeout are kept; a non-positive one becomes 100ms, 1s and 1 minute respectively; callback and backoff are kept |
| Retry.Configure | retry/retry.go:79-97 | the options are the setters applied in order to {Backoff: true}, then defaulted |
| Retry.ResolveLastWins | retry/retry.go:48-97 | each option is its last setter's value when positive, else 100ms, 1s or 1 minute; backoff is off only when the last Backoff setter says false |
| Retry.Abort | retry/retry.go:24-35 | errors.As finds the abort with its cause; the message is "retry abort", followed by ", error: " and the cause's message when there is a cause |
| Retry.Retry | retry/retry.go:78-139 | the result, the number of calls and the callback notices are exactly those of the loop specification on the resolved options |
| Retry.Loop | retry/retry.go:110-138 | the loop itself: its result, number of calls and notices equal the recursive loop specification from the first iteration |
| Retry.NoticesShape | retry/retry.go:127-134 | one notice per ordinary failure, in order, each with that failure's error and sleep |
| Retry.RunCharacterized | retry/retry.go:110-138 | after k ordinary failures the loop stops at the first success, abort or deadline, with k notices |
| Retry.FailuresThenSuccess | retry/retry.go:117-120 | n ordinary failures and then a success return nil after n+1 calls and n notices |
| Retry.AbortStops | retry/retry.go:122-125 | an abort anywhere on the wrap chain stops the loop at once and returns the abort's cause |
| Retry.AlwaysFailingTimesOut | retry/retry.go:113-115 | an operation that never succeeds meets the deadline: the wrapped timeout after exactly budget calls, with one notice per call when a callback is set |
| Retry.NoticesWithoutBackoff | retry/retry.go:127-134 | without backoff every sleep is 0, and no notice carries nil or an abort |
| Retry.AttemptsBounded | retry/retry.go:110-138 | the operation is called at most budget times, and at least once when there is budget |
| UrlLib.KeyValue | urllib/link.go:57-62 | the key is the text before the first '='; the value is the rest with its quotes trimmed and is "" without '='; a non-empty value neither starts nor ends with a quote |
| UrlLib.ApplyAttrCases | urllib/link.go:47-67 | a blank attribute changes nothing; "<...>" sets the URL; otherwise "rel" sets Rel and any other key sets that attribute |
| UrlLib.ParseAll | urllib/link.go:41-75 | never more links than segments, and every kept link has a URL |
| UrlLib.ParseLinks | urllib/link.go:41-75 | the links of the ','-segments in order, without those having no URL |
| UrlLib.ParsedLinkShape | urllib/link.go:47-67 | a parsed link never has a "rel" attribute, and neither Rel nor any value is left quoted at either end |
| UrlLib.ParseAllInOrder | urllib/link.go:43-73 | the k-th parsed link is the link of the k-th segment that has a URL |
| UrlLib.LinkString | urllib/link.go:16-25 | "<URL>", `; rel="..."` when Rel is set, then `; key="value"` for every attribute once, in some map order; whatever the order, the text starts with that head and is only the head without attributes |
| UrlLib.LinksString | urllib/link.go:31-37 | every link's text, each with its own attribute order, joined with " , "; empty exactly for no links, and otherwise starting with '<' |
| LinkRoundTrip.LinkTextParses | urllib/link.go:16-67 | the text of a printable link parses back to that link, whatever order printed its attributes |
| LinkRoundTrip.PadKeepsSegment | urllib/link.go:48 | spaces around a segment do not change the link it describes |
| LinkRoundTrip.LinksRoundTrip | urllib/link.go:31-75 | parsing the text of printable links gives back exactly those links, for any attribute orders |
| LinkRoundTrip.PrintThenParse | urllib/link.go:31-75 | Links.String followed by ParseLinks is the identity on printable links |
| OrmQuery.Query.constructor | orm/query.go:41-43 | New: the keywords, and no sorts, pages or sorting |
| OrmQuery.Query.First | orm/query.go:30-38 | page 1 of size 1, the given sorts after the existing ones, keywords kept, the same query returned |
| OrmQuery.CopyKeywords | orm/query.go:55-57 | the copy holds exactly the original keywords, whatever order they are visited in |
| OrmQuery.MustCloneAsWritten | orm/query.go:47-66 | as written: a fresh query; a nil query gives an empty one; otherwise keywords and pages are copied, and the sort list is the original followed by a copy of it |
| OrmQuery.AsWrittenDoublesSorts | orm/query.go:54-63 | the as-written clone of a non-empty sort list is twice as long, so it is not a copy |
| OrmQuery.MustClone | orm/query.go:47-66 | corrected: a fresh query; a nil query gives an empty one; otherwise keywords, pages and sorts equal the original's |
| OrmQuery.WrapCongruent | orm/query.go:196-216 | wrapping changes a product by a multiple of 2^64 and leaves an int64 value as it is |
| OrmQuery.PageOffsetExact | orm/query.go:196-216 | without overflow the offset is the number of records on the earlier pages, never negative |
| OrmQuery.RawPaginationBindsEveryPlaceholder | orm/query.go:209-220 | the SQL and the parameters keep what was given, and grow by exactly one parameter per added '?' |
| OrmQuery.RawPaginationUnchanged | orm/query.go:210 | nothing is added exactly when the query is nil or its page size is not positive |
| OrmQuery.PaginationOnRawSQL | orm/query.go:209-220 | the text and parameters are those of the raw pagination of the query's page |
| OrmQuery.PageOps | orm/query.go:193-198 | no page call without a positive size; Limit comes first; both calls exactly when size and number are positive |
| OrmQuery.OffsetsAgree | orm/query.go:196-216 | the query setter's Offset and the raw-SQL helper's offset parameter are the same number |
| OrmQuery.SortTextRoundTrip | orm/query.go:295-298 | the text OrderBy receives ("-" before a descending key) reads back as its sort when the key does not start with '-' |
| OrmQuery.RequestedMembers | orm/query.go:291-300 | a text is requested exactly when it is the text of a sortable sort of the query |
| OrmQuery.RequestedAll | orm/query.go:291-300 | when every sort is sortable, all of them are requested, in order |
| OrmQuery.RequestedEmpty | orm/query.go:291-300 | no more texts than sorts, and none exactly when no sort is sortable |
| OrmQuery.SortingsFallBack | orm/query.go:301-310 | the default sorts apply exactly when no sort of the query is sortable |
| OrmQuery.SetSorts | orm/query.go:289-315 | one OrderBy of the sortable sorts (or the defaults), or no call when there is nothing to sort by |
| OrmQuery.FieldOf | orm/query.go:237 | the field is the prefix of the key before its first "__", and the whole key when it has none |
| OrmQuery.KeywordOpsCases | orm/query.go:238-283 | an unfilterable key adds nothing; a filter method is called alone; a fuzzy value gives one escaped `__icontains` filter; a range gives only its non-nil bounds; an and-list adds nothing; any other value gives one exact filter |
| OrmQuery.SetFilters | orm/query.go:232-286 | every keyword's calls are added, visiting each key once in the map's order; the earlier calls are kept, only filter calls are added, and no keywords add nothing |
| OrmQuery.FilterOpsOrderFree | orm/query.go:233 | two visiting orders of the same keys give the same calls, as a multiset |
| OrmQuery.KeywordOrderIrrelevant | orm/query.go:233 | whatever order Go visits the keywords in, the same filter calls are made |
| OrmQuery.QuerySetter | orm/query.go:171-201 | a non-pointer model and a missing ORM are errors; a nil query gives the bare table; otherwise filters, then sorts, then pages |
| OrmQuery.CountOps | orm/query.go:222-229 | with no sorts and no pages, the calls are the filters and at most the default-sort OrderBy, with no page call |
| OrmQuery.QuerySetterForCount | orm/query.go:222-229 | the same errors; otherwise the filters of the query (none for nil), the default sorts if the model has any, and never a Limit or Offset |
| ConfigTypes.ParseIntValue | config/metadata/type.go:191-203 | succeeds exactly on a decimal integer in 32-bit range and gives its value; otherwise "invalid int string: <str>" |
| ConfigTypes.ParseInt64Value | config/metadata/type.go:177-189 | succeeds exactly on a decimal integer in 64-bit range and gives its value; otherwise "invalid int64 string: <str>" |
| ConfigTypes.StringTypesAcceptAll | config/metadata/type.go:23-124 | string and password items accept every string and get it back unchanged |
| ConfigTypes.NonEmptyRejectsBlank | config/metadata/type.go:36-41 | rejected, with ErrorStringValueIsEmpty, exactly when every character is white space; get returns the string unchanged |
| ConfigTypes.PortAcceptsExactly | config/metadata/type.go:61-75 | accepted exactly for the decimal integers 0 through 65535 |
| ConfigTypes.QuotaAcceptsExactly | config/metadata/type.go:163-174 | in the model, whose parser reads only decimal integers, a quota is accepted exactly for -1 and the positive int64 values (see Left out for the float forms) |
| ConfigTypes.ValidateIffGet | config/metadata/type.go:47-156 | for types whose validate only tries the conversion, validation fails exactly when get fails |
| ConfigTypes.ValidImpliesGet | config/metadata/type.go:47-174 | whatever validate accepts, get converts |
| ConfigTypes.GetValueKind | config/metadata/type.go:27-155 | the dynamic type of get's result depends only on the item type |
| ConfigTypes.ParseIntDecimal | config/metadata/type.go:177-203 | the decimal text of an in-range integer parses back to it; in the model, which reads only decimal integers, any other string fails with the message naming it (see Left out for the float forms) |
| StrConv.ParseInt | config/metadata/type.go:178-192 | strconv.ParseInt base 10: succeeds exactly on a decimal in range, else a NumError naming the function and the input |
| StrConv.ParseFormatRoundTrip | config/metadata/type.go:178-192 | formatting an in-range integer and parsing it back gives the integer |
| StrConv.SignAndLeadingZeros | config/metadata/type.go:62 | a sign and leading zeros are accepted; empty text, a lone sign and underscores are not |
| ConfigMetadata.ItemsByName | config/metadata.go:46-51 | the table's names are exactly the items' names |
| ConfigMetadata.LaterItemWins | config/metadata.go:46-51 | for a duplicated name, the last item carrying it is in the table |
| ConfigMetadata.ConfigMetaData.InitFromArray | config/metadata.go:46-51 | the previous contents are discarded and replaced by the items by name |
| ConfigMetadata.ConfigMetaData.Register | config/metadata.go:54-56 | exactly the given name is inserted or overwritten |
| ConfigMetadata.ConfigMetaData.GetByName | config/metadata.go:59-64 | found exactly when the name is registered, and then its item |
| ConfigMetadata.ConfigMetaData.GetAll | config/metadata.go:67-73 | every registered item exactly once, as many as the table holds, in some map order; the list holds exactly the table's items |
| ConfigMetadata.MetaDataHolder.Instance | config/metadata.go:29-38 | the first call creates an empty table and every call returns that same table |
| ConfigValue.ConfigureValue.Set | config/value.go:154-165 | an undefined name gives ErrorNotDefined; otherwise the type's validation verdict; name and value are stored exactly when it passes |
| ConfigValue.ConfigureValue.GetString | config/value.go:35-41 | the raw value when the name is defined, "" otherwise |
| ConfigValue.ConfigureValue.GetPassword | config/value.go:145-151 | the same value as GetString |
| ConfigValue.ConfigureValue.GetInt | config/value.go:48-61 | the int get yields, or 0 when the name is undefined, get fails or the value is not an int |
| ConfigValue.ConfigureValue.GetInt64 | config/value.go:64-77 | the int64 get yields, or 0 otherwise |
| ConfigValue.ConfigureValue.GetBool | config/value.go:96-109 | the bool get yields, or false otherwise |
| ConfigValue.ConfigureValue.GetStringToStringMap | config/value.go:112-126 | the string map get yields, or an empty map otherwise |
| ConfigValue.ConfigureValue.GetAnyType | config/value.go:129-134 | get's result for a defined name, ErrorNotDefined otherwise |
| ConfigValue.ConfigureValue.Validate | config/value.go:137-142 | the type's verdict for a defined name, ErrorNotDefined otherwise |
| ConfigValue.NewConfigureValue | config/value.go:26-33 | a fresh value with the Set verdict; it keeps the name even on error, and the value only on success |
| ConfigValue.SetValueValidates | config/value.go:154-165 | a value Set accepted always converts with get afterwards |
| ConfigValue.Int64NotAnInt | config/value.go:55-57 | an int64 item never yields a value through GetInt |
| ConfigManager.Managers.Register | config/config.go:35-42 | the manager is stored under the name, replacing what was there; a warning exactly for a nil manager, which is stored too |
| ConfigManager.Managers.GetManager | config/config.go:45-51 | the registered manager, or "config manager is not registered: <name>" |
| ConfigManager.Managers.DefaultManager | config/config.go:54-60 | the manager under the default name, or nil when there is none |
| ConfigManager.RegisterThenGet | config/config.go:35-51 | after two registrations under one name, lookup gives the second; other names are unaffected |
| LogLevel.LevelString | log/level.go:18-35 | one letter; "U" exactly for a level outside the five named ones |
| LogLevel.ParseLevel | log/level.go:37-64 | a success is a named level spelt by the lower-cased input; a failure is "Invalid log level: <input>" |
| LogLevel.ParseLevelExact | log/level.go:37-64 | parses to a level exactly when the lower-cased input is one of that level's spellings |
| LogLevel.StringRoundTrip | log/level.go:18-64 | parsing the letter of a named level gives it back |
| LogLevel.CaseInsensitive | log/level.go:38 | upper-case and mixed-case spellings are accepted |
| LogLevel.AbbreviationRejected | log/level.go:47-50 | "warn" is not a spelling of the warning level |
| StrLib.Truncate | strlib/truncate.go:5-11 | the whole text when it fits; otherwise exactly n bytes: str cut short, then the suffix |
| StrLib.TruncateShape | strlib/truncate.go:5-11 | the result ends with the whole suffix after a prefix of str, and is as long as the untruncated text or exactly n |
| StrLib.TrimLineBreaks | strlib/strings.go:11-15 | no '\n' or '\r' is left, and the result is no longer |
| StrLib.TrimLineBreaksKeepsTheRest | strlib/strings.go:11-15 | the two passes equal one pass keeping exactly the characters that are not line breaks |
| StrLib.TrimLineBreaksIdempotent | strlib/strings.go:11-15 | trimming twice is trimming once, and a text without line breaks is unchanged |
| StrLib.CharsAreAlphanumeric | strlib/randomstr.go:11 | the alphabet has 62 characters, exactly the ASCII letters and digits |
| StrLib.GenerateRandomStringWithLen | strlib/randomstr.go:10-22 | the requested length; each byte is the alphabet character at its random byte modulo 62, so it is alphanumeric |
| StrLib.GenerateRandomString | strlib/randomstr.go:25-27 | 32 such characters |

## Left out

- Concurrency: goroutines, `sync.Map`, `sync.RWMutex` and `sync.Once` are modelled for one caller at a time. A value another caller saves while FetchOrSave waits for the key lock appears as a NotFound fault on the first Fetch. The lock-table retry at cache/util.go:29-32 happens only under contention, so it is not modelled.
- CacheUtil.KeyMutex.Lock: requires the key to be free. A held key would block the single caller for ever.
- CacheUtil.KeyMutex.Unlock: requires the key to be held. The panic "unlock of unlocked mutex" is a programming-error guard and is not modelled.
- Time: the retry timeout is the `budget` of iterations that start before `time.After` fires. `time.Sleep` and the jittered backoff of `jpillora/backoff` are an oracle of durations. Only whether a callback is set is modelled, not what it does.
- Logging: every `log` call is left out. `Initialize` returns the address its ping log would show, and `ConfigManager.Managers.Register` returns whether it warns.
- The expiration argument of FetchOrSave and Save: it only concerns the backend.
- The backend methods Contain, Delete and Keys: the core never calls them. Ping is an oracle.
- The codec, JSON decoding, `url.Parse`, `URL.String`, `snakeCase`, the ORM's `Escape` and `parseModel` are parameters. Their own behaviour is not part of this model.
- ConfigTypes.ParseIntValue: does not model the floating-point fallback of parseInt (ParseFloat with bitSize 32), because Go's float parsing and rounding are out of scope. In the source, fractional or exponent forms such as "7.0" and "1e3" succeed, and so does out-of-range text such as "3000000000", which ParseFloat accepts. The value is also rounded through float32, so "3000000001" becomes 3000000000. Here all of these fail.
- ConfigTypes.ParseInt64Value: for the same reason, does not model parseInt64's ParseFloat(str, 64) fallback, so "1e3", "5.0" and "-1.0" fail here although the source accepts them (rounded through float64).
- ConfigTypes.ParseIntDecimal: its clause that a non-decimal string fails is true of the model only; with the float fallback above, the source's parseInt and parseInt64 accept "7.0" and "1e3".
- ConfigTypes.QuotaAcceptsExactly: true of the model only; with parseInt64's float fallback, QuotaType.validate in the source also accepts "1e3", "5.0" and "-1.0".
- Errors.Message: a NumError's input is written between plain double quotes; Go's strconv.Quote would also escape quote characters and non-printable bytes inside it, which the model does not do.
- Float64Type and ConfigureValue.GetFloat64: no floating point.
- config.go's GetConfigManager, Load and Upload only forward to a Manager implementation, which is not part of this model.
- LogLevel.ParseLevel: `strings.ToLower` is modelled for ASCII letters only.
- strlib's Title uses Unicode case mapping (`golang.org/x/text/cases`), which is not modelled.
- StrLib.Truncate: requires that the suffix fits in n whenever the whole text does not. Otherwise the source's slice bound is negative and Go panics.
- StrLib.GenerateRandomStringWithLen: the length is a `nat`, because a negative length panics in `make`. A failed crypto/rand read only logs, so the bytes are whatever the buffer held.
- Reflection in QuerySetter is the two parameters `isPointer` and `elemName`. The model does not capture that `t.Elem()` panics for a non-pointer non-container model instead of returning the error.
- `FromContext` is the parameter `ormer`: an error, or none when the context carries an ORM.
- What a model's filter method does to the query setter is unknown, so it appears as one `FilterFunc` call.
- Typed nil pointers: a nil `*Range` or `*FuzzyMatchValue` keyword and a nil `*Sort` in Sorts panic in the source; the model has no such values. A nil `*OrList` is modelled, and filters on `key__in` with nil.
- Pointer sharing in MustClone: Go's clone shares the `Sort` pointers and the original slice's backing array. The model copies values, so later mutation through a shared pointer is not captured.
- The `ignoredCols` argument of QuerySetterForCount is unused in the source, so it has no counterpart.
- The deprecated `Sorting` field is never read by the core. MustClone leaves it empty, as the source does.
- The repository's own `errors` package is not part of this model. Its `errors.New(err)`, which wraps an error, is modelled as a `Wrapped` error that carries a message.

## Findings

| source | as written | input that shows it | evidently intended | confidence | as-written member | corrected member |
|---|---|---|---|---|---|---|
| cache/helper.go:68 | after a successful save, the last Fetch decodes into `val`, the built value, instead of `value` | empty store, builder returns 7, save succeeds: success is reported and the caller's destination stays empty | the final Fetch fills the caller's destination, as the comment at cache/helper.go:17-19 says | not executed | CacheHelper.FetchOrSaveAsWritten, CacheHelper.AsWrittenLosesBuiltValue | CacheHelper.FetchOrSave, CacheHelper.CallerSeesCachedValue |
| orm/query.go:54-63 | the clone's Sorts start as the original slice and then get a copy of every sort appended | a query with Sorts [name asc]: the clone sorts by [name asc, name asc] | the clone's sorts are a copy of the original's | not executed | OrmQuery.MustCloneAsWritten, OrmQuery.AsWrittenDoublesSorts | OrmQuery.MustClone |

The first finding changes what a caller sees. The second doubles every sort key in the ORDER BY of a cloned query. QuerySetterForCount clears the sorts of its clone, so there the doubling has no effect.

QuerySetterForCount's comment says sorting is ignored. The code clears only the query's own sorts: a model with default sorts still gets an OrderBy in the count query. The model keeps this, as `OrmQuery.QuerySetterForCount` and `OrmQuery.CountOps` state.
