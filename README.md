# NDL search server — a verified model of its core

This project models, in Dafny, the core of an MCP server that searches the
National Diet Library (NDL) of Japan through its SRU 1.2 `searchRetrieve`
endpoint and republishes the records it finds to a downstream MCP service.

The model covers:

- the CQL guard every query passes (`validateQuery`);
- the sliding-window rate limiter and the TTL/LRU memory cache, as classes
  whose methods update their maps in place;
- the NDL connector's GET retry loop and the publisher's POST retry loop,
  with each attempt's outcome an input and every pause recorded in a trace;
- the publisher's slicing into batches of fifty and its aggregation;
- the XML record mapper, starting from the tree the XML parser produces;
- the search adapter's parameter normalisation and record conversion;
- the five search tools: `ndl_sru_search`, `ndl_search_by_title`,
  `ndl_search_by_subject`, `ndl_search_by_description` and
  `ndl_search_books`, with its three modes;
- the rule-based strategy, the integer scoring engine, and the rule-based
  paths of the intent analyzer, the result filter and the staged search
  engine;
- the metrics collector with its Prometheus export, and the output formatter.

There is one module per source file. `JsText` holds the JavaScript string
primitives the code relies on and `SeqUtils` its array primitives. Among
those is the stable descending sort that `Array.prototype.sort` performs
with a `b - a` comparator.

The modelling choices:

- Clocks, the network, the language model, the XML parser and serializer,
  `uuid`, `encodeURIComponent` and the JSON/YAML renderers are parameters.
- The model's methods run the source's loops.
- Each method is proved equal to a specification function, and the
  properties are proved about those functions.

Where the repository's prose and its code differ, the model follows the
code. For example, the publisher posts to `<MCP_API_URL>/api/v1/publish`
(src/adapters/publisher.http.ts:96), even though the default base URL already
ends in `/api/v1`.

## Model

| member | source | states |
|---|---|---|
| QueryValidator.ValidateQuery | src/core/queryValidator.ts:9-75 | an accepted query is returned unchanged with at most 200 records; a query is accepted exactly when it is at most 1024 characters long, has no `*`, uses only whitelisted fields, has at most 10 OR conditions and passes the syntax check; a `TOO_LONG` error carries the query length, a `WILDCARD_TOO_BROAD` error the pattern `*`, a `POTENTIAL_DDOS` error the OR count, an `INVALID_SYNTAX` error the query |
| QueryValidator.CheckOrder | src/core/queryValidator.ts:15-66 | each error code arises exactly when every earlier check passes and its own check fails, in the order length, wildcard, field, OR count, syntax |
| QueryValidator.DisallowedFieldIsFirst | src/core/queryValidator.ts:34-46 | a `DISALLOWED_FIELD` error names a field off the whitelist, and it is the first refused field in text order |
| QueryValidator.RecordCap | src/core/queryValidator.ts:11 | an accepted query asks for 20 records when none are given, otherwise for `min(requested, 200)`, with no lower clamp |
| QueryValidator.AcceptedFieldsAllowed | src/core/queryValidator.ts:34-46 | every `field<comparator>` match in an accepted query names one of the six whitelisted fields |
| QueryValidator.LetterRunEnd | src/core/queryValidator.ts:34 | the `[A-Za-z]+` run from a position ends at the first non-letter |
| QueryValidator.SpaceRunEnd | src/core/queryValidator.ts:34 | the `\s*` run from a position ends at the first non-space |
| QueryValidator.FieldBeforeComparator | src/core/queryValidator.ts:34 | letters at a word boundary followed by a comparator form a field match whose field is exactly those letters |
| QueryValidator.MatchesDoNotOverlap | src/core/queryValidator.ts:34-37 | no field match starts inside another, so the global scan meets every match position |
| QueryValidator.FirstRefusedFrom | src/core/queryValidator.ts:36-45 | the position returned is the first refused field match from the start position, or the end when there is none |
| QueryValidator.FirstDisallowedFrom | src/core/queryValidator.ts:36-45 | no field is reported exactly when no refused match exists; a reported field is that of the first refused match |
| QueryValidator.FieldRefusedAtStart | src/core/queryValidator.ts:3-45 | a query opening with a letter word of length below 4 or above 8 followed by a comparator is refused |
| QueryValidator.AllowedFieldLengths | src/core/queryValidator.ts:3 | every whitelisted field has 4 to 8 letters |
| QueryValidator.DisallowedFieldFound | src/core/queryValidator.ts:34-45 | any refused field match anywhere makes the scan report a field |
| QueryValidator.OrMatchesDoNotOverlap | src/core/queryValidator.ts:49 | two whole-word `OR` matches never overlap, so counting positions counts matches |
| QueryValidator.CountOrFrom | src/core/queryValidator.ts:49-50 | the count is at most the remaining length, and zero exactly when no whole-word `OR` (any case) remains |
| QueryValidator.SpaceRunStart | src/core/queryValidator.ts:80 | the white-space run that ends at a position starts after a non-space |
| RateLimit.Live | src/middleware/rateLimit.ts:38 | every kept timestamp lies strictly after the window start; no more are kept than the history holds |
| RateLimit.LiveMembers | src/middleware/rateLimit.ts:38 | a timestamp is kept exactly when it is in the history and lies strictly after the window start |
| RateLimit.LiveConcat | src/middleware/rateLimit.ts:38 | `filter` works piece by piece, so the kept timestamps stay in the history's order |
| RateLimit.LiveKeepsRecent | src/middleware/rateLimit.ts:38 | a history wholly inside the window is kept whole |
| RateLimit.Minimum | src/middleware/rateLimit.ts:42 | the minimum is one of the timestamps and no timestamp is smaller |
| RateLimit.CeilDiv1000 | src/middleware/rateLimit.ts:43 | the result is the least whole number of seconds covering the milliseconds |
| RateLimit.MemoryRateLimiter.constructor | src/middleware/rateLimit.ts:22-25 | a new limiter keeps its configuration and has no history |
| RateLimit.MemoryRateLimiter.Check | src/middleware/rateLimit.ts:27-62 | the answer and the new history are those of the check specification, whose properties `CheckAdmitsWithinWindow` proves |
| RateLimit.MemoryRateLimiter.Cleanup | src/middleware/rateLimit.ts:65-75 | every history is pruned to the window and the keys left empty are deleted |
| RateLimit.Guard | src/middleware/rateLimit.ts:113-131 | an admitted call proceeds; a refused one raises `RateLimitError` carrying the retry-after seconds, the reset time and the message naming the seconds; the key is the caller's or `default`; the limiter's histories become exactly what `check` under that key leaves |
| RateLimit.CheckAdmitsWithinWindow | src/middleware/rateLimit.ts:27-62 | a request is admitted exactly when fewer than `maxRequests` live requests of its key remain in the window; admission records `now` and reports what is left; refusal changes nothing, reports 0 remaining and a retry-after of at least one second that covers the reset time; other keys are untouched |
| RateLimit.LiveIdempotent | src/middleware/rateLimit.ts:38-68 | pruning to a window and then to a later window is the same as pruning to the later one |
| RateLimit.LiveAllAbove | src/middleware/rateLimit.ts:38 | a history already inside the window is kept whole |
| RateLimit.LiveForPruned | src/middleware/rateLimit.ts:65-75 | after cleanup, the live requests of any key at any later time are unchanged |
| RateLimit.CleanupUnobservable | src/middleware/rateLimit.ts:27-75 | a check at any later time answers the same after cleanup as before it |
| RateLimit.AdmissionKeepsWindowBound | src/middleware/rateLimit.ts:41-55 | right after an admission the key holds at most `maxRequests` requests in the window |
| RateLimit.PresetKeys | src/middleware/rateLimit.ts:81-94 | the NDL preset keys `ndl:` + identifier with 30 requests a minute, the tool preset `mcp:` + identifier with 100 a minute |
| Cache.Without | src/middleware/cache.ts:58-105 | removing a key from the insertion order keeps every other key, keeps the order duplicate-free, and changes nothing when the key is absent |
| Cache.CoherentRemove | src/middleware/cache.ts:58-105 | deleting a key from the map and from its order keeps the two in step |
| Cache.CoherentStore | src/middleware/cache.ts:40-45 | storing a key keeps the map and its order in step, a new key going last |
| Cache.VictimUpTo | src/middleware/cache.ts:88-93 | the scan's choice after `n` keys is one of those keys |
| Cache.VictimUpToLeast | src/middleware/cache.ts:85-93 | the scan's choice was accessed strictly before now, no later than any scanned entry and strictly earlier than every entry before it; with no choice, every scanned entry was accessed at or after now |
| Cache.MemoryCache.constructor | src/middleware/cache.ts:26-29 | a new cache keeps its configuration and is empty |
| Cache.MemoryCache.FindVictim | src/middleware/cache.ts:85-93 | the loop finds the entry the eviction specification names |
| Cache.MemoryCache.EvictLru | src/middleware/cache.ts:84-98 | exactly the chosen key, if any, leaves the map and the order |
| Cache.MemoryCache.Set | src/middleware/cache.ts:31-46 | the new state is the set specification's: evict first when full and the key is new, then store a fresh entry; `SetFrame` and `SetThenGet` state what that means |
| Cache.MemoryCache.Get | src/middleware/cache.ts:48-65 | an absent or expired key answers nothing and an expired one is deleted from the entries and from the insertion order; a live one answers its value, is touched at now and keeps its place in the order |
| Cache.MemoryCache.Has | src/middleware/cache.ts:67-69 | the answer is whether `get` finds a value, with the same deletion or touch as `get`, in the entries and in the insertion order |
| Cache.MemoryCache.Delete | src/middleware/cache.ts:71-73 | the answer is whether the key was present, and the key is gone afterwards |
| Cache.MemoryCache.Clear | src/middleware/cache.ts:75-121 | the cache is empty afterwards |
| Cache.MemoryCache.Size | src/middleware/cache.ts:79-81 | the number of entries |
| Cache.MemoryCache.GetStats | src/middleware/cache.ts:124-134 | the number of entries and the configured maximum |
| Cache.MemoryCache.Cleanup | src/middleware/cache.ts:101-108 | exactly the expired entries are deleted, and the insertion order keeps the remaining keys in their order |
| Cache.SweepIsFilter | src/middleware/cache.ts:101-108 | after visiting some keys in turn, the sweep has deleted exactly the expired entries among them |
| Cache.SweepEntriesStep | src/middleware/cache.ts:103-107 | one step of the sweep deletes the key exactly when it is stored and expired |
| Cache.SweepOrderStep | src/middleware/cache.ts:103-107 | one step of the sweep takes the key out of the insertion order exactly when it deletes its entry |
| Cache.OrderSweepStep | src/middleware/cache.ts:103-107 | deleting an expired key takes it out of the order where it stands, leaving the others in place |
| Cache.SweepAll | src/middleware/cache.ts:101-108 | once every key has been visited, only the unexpired entries remain |
| Cache.LiveKeysMembers | src/middleware/cache.ts:101-108 | a key stays in the order after cleanup exactly when it was there and its entry has not expired |
| Cache.LiveKeysDistinct | src/middleware/cache.ts:101-108 | cleanup keeps every key at most once in the order |
| Cache.CleanupCoherent | src/middleware/cache.ts:101-108 | after cleanup the stored keys and the insertion order agree again |
| Cache.WithoutConcat | src/middleware/cache.ts:105 | deleting a key from a `Map` removes it from each part of the insertion order |
| Cache.WithoutMiddle | src/middleware/cache.ts:105 | deleting a key that occurs once removes it where it stands |
| Cache.DistinctSplit | src/middleware/cache.ts:103 | a key of the `Map`'s duplicate-free order occurs neither before nor after its place |
| ResultScoring.DecimalText | src/core/resultScoring.ts:195 | text opening with a digit but not with `0x` is read in decimal |
| ResultScoring.HexText | src/core/resultScoring.ts:195 | text opening with `0x` or `0X` is read in base 16 from its third character |
| Cache.WithCache | src/middleware/cache.ts:177-204 | the wrapped method runs exactly on a miss; a hit answers the cached value, touches it and keeps the order; a miss answers the computed value and leaves exactly the state of `set` applied, at the later clock reading taken once the wrapped method has resolved, after `get` dropped any expired entry for the key, in the entries and in the order; the new entry is stamped with that later time |
| Cache.SetThenGet | src/middleware/cache.ts:31-65 | a value just stored reads back until its time-to-live (`ttl || defaultTtl`) has passed, and not after |
| Cache.SetFrame | src/middleware/cache.ts:31-46 | `set` changes only its own key, and removes another key only when the cache is full, the key is new and that key is the LRU victim |
| Cache.EvictsLeastRecentlyUsed | src/middleware/cache.ts:84-98 | the evicted key is present, is not `""`, was accessed before now and no entry was accessed earlier; nothing is evicted when every entry was accessed at or after now |
| Cache.CleanupUnobservable | src/middleware/cache.ts:101-108 | a `get` at the same time or later answers the same after cleanup as before it |
| Cache.GetTouchesOnlyItsKey | src/middleware/cache.ts:48-65 | `get` leaves every other entry as it was; a hit keeps the value and sets the access time to now; a miss leaves the key absent |
| NdlConnector.SearchNdl | src/core/ndlConnector.ts:13-88 | the attempt loop yields the result and the request/pause trace of the exchange specification, whose shape `RetrySchedule` proves |
| NdlConnector.AttemptsShape | src/core/ndlConnector.ts:26-87 | from any attempt on, the exchange runs attempts up to some `n`, all but the last retryable; the last either settles the call or, retryable at the final attempt, exhausts the retries with its message |
| NdlConnector.RetrySchedule | src/core/ndlConnector.ts:26-87 | the exchange makes 1 to `HTTP_RETRY + 1` requests with the back-off pauses between them; every request but the last met a 5xx or a network failure; the last settles (success, 4xx, timeout, unknown error) or the retries are exhausted |
| NdlConnector.ClientErrorNotRetried | src/core/ndlConnector.ts:50-52 | a 4xx on the first attempt ends the exchange after one request, with the message naming the status |
| NdlConnector.RequestsCarryQuery | src/core/ndlConnector.ts:16-21 | every request carries `searchRetrieve`, the validated CQL, the configured schema and the record count |
| NdlConnector.ScheduleRequests | src/core/ndlConnector.ts:28-35 | every request of a schedule is the same request |
| NdlConnector.DefaultPauses | src/core/ndlConnector.ts:11-66 | with three retries the pauses are 200, 600 and 1800 ms between four requests |
| SruSearch.RequestedCount | src/mcp/tools/sruSearch.ts:64 | `maximumRecords` when given, otherwise the legacy `maxRecords` |
| SruSearch.SearchParams | src/mcp/tools/sruSearch.ts:58-67 | the adapter gets the CQL, the requested count, start record 1 and schema `dcndl` by default |
| SruSearch.OutputShape | src/mcp/tools/sruSearch.ts:57-95 | a success counts its records and has no listing unless a format was asked for; every failure carries the tool's error prefix |
| SruSearch.RejectedQueryNeverSearches | src/mcp/tools/sruSearch.ts:69-77 | a query the validator rejects fails with the validator's message and no request is made |
| SruSearch.SearchesWithUncappedCount | src/mcp/tools/sruSearch.ts:62-80 | every request carries the CQL and the caller's count (`maximumRecords ?? maxRecords`, or 20), not the validator's capped one |
| SruSearch.LargeCountForwarded | src/mcp/tools/sruSearch.ts:62-80 | a request for 500 records is forwarded as 500 although the validator caps it at 200 |
| SruSearch.ResultIsAdapterResult | src/mcp/tools/sruSearch.ts:79-86 | a success means the query was accepted, and its records and count are the adapter's records |
| XmlMapper.ExtractNdlBibId | src/core/xmlMapper.ts:152-177 | no identifier gives nothing; a text identifier is returned as it is; an identifier list gives nothing; for an element: a direct `rdf:datatype` that names `NDLBibID` (a text including it or an array holding it) gives its `_` text, or the element itself when that is missing; otherwise a `$` whose `rdf:datatype` names it gives `_`; with no `$`, or a `$` datatype that is absent or does not name it, the result is nothing; a datatype that is an element makes `includes` throw a TypeError |
| XmlMapper.BibIdGuardCases | src/core/xmlMapper.ts:163-172 | each `rdf:datatype` guard names `NDLBibID`, turns it down or throws, exactly one of these, so the cases above fix the result |
| XmlMapper.CreatorNames | src/core/xmlMapper.ts:190-199 | every name picked from the creator entries is truthy |
| XmlMapper.CreatorNamesMembers | src/core/xmlMapper.ts:190-203 | a name is picked exactly when some entry yields it (text, `foaf:Agent/foaf:name` or `foaf:name`) and it is truthy |
| XmlMapper.SubjectTextsMembers | src/core/xmlMapper.ts:225-227 | a subject is kept exactly when it occurs as a text entry |
| XmlMapper.CreatorNamesConcat | src/core/xmlMapper.ts:185-205 | the names of two fields in turn are the names of the first then those of the second |
| XmlMapper.PushNames | src/core/xmlMapper.ts:201-203 | a name is among those pushed exactly when it occurs among the names met |
| XmlMapper.PushNamesTextsDistinct | src/core/xmlMapper.ts:201-203 | `includes` compares strings by value, so no text name is pushed twice |
| XmlMapper.PushNamesKeepsObjects | src/core/xmlMapper.ts:201-203 | a name that is an element or array is a fresh object `includes` never matches, so every one is pushed, in order, repetitions kept |
| XmlMapper.PushNamesPrefix | src/core/xmlMapper.ts:185-205 | the loop over a longer list of names only appends to what the shorter list gave |
| XmlMapper.PushNamesSnoc | src/core/xmlMapper.ts:201-203 | one more name is pushed exactly when `includes` does not find it |
| XmlMapper.CreatorsUnion | src/core/xmlMapper.ts:179-208 | `creators` holds every text name once and every element or array name as often as it occurs, holds only truthy names, holds exactly the names some creator entry of either field yields, and begins with the `dcterms:creator` names |
| XmlMapper.SubjectsUnion | src/core/xmlMapper.ts:214-233 | `subjects` has no repetition and holds exactly the text entries of either subject field |
| XmlMapper.ExtractCreators | src/core/xmlMapper.ts:179-208 | the nested loop yields the creator list of `CreatorsUnion`: each text name once, each element or array name every time it occurs |
| XmlMapper.CreatorsStep | src/core/xmlMapper.ts:201-203 | one step of the loop appends the entry's name exactly when it is present and `includes` does not find it: a text name not yet listed, or any element or array name |
| XmlMapper.ExtractSubjects | src/core/xmlMapper.ts:214-233 | the nested loop yields the subject union |
| XmlMapper.SubjectsStep | src/core/xmlMapper.ts:226-228 | one step of the loop appends a text entry exactly when it is not yet listed |
| XmlMapper.FirstTitled | src/core/xmlMapper.ts:76-82 | the index found is the first resource with a `dcterms:title` or `dc:title`, and none is found only when no resource has one |
| XmlMapper.MapRecordFacts | src/core/xmlMapper.ts:49-145 | unreadable record data or no titled resource gives no record; a mapped record comes from the first titled resource, has a truthy title (`dcterms:title`, else `dc:title`), an id `ndl:` + the NDL BibID or else `ndl:` + a fresh UUID, the creator union, `pub_date` when issued is present, subjects when there are any, a language description when there is a language, and the fixed provider and licence |
| XmlMapper.FindTitledResource | src/core/xmlMapper.ts:76-82 | the loop with `break` finds the first titled resource |
| XmlMapper.FirstTitledIs | src/core/xmlMapper.ts:76-82 | a titled resource with no titled one before it is the one found |
| XmlMapper.FirstTitledIsNone | src/core/xmlMapper.ts:76-86 | with no titled resource nothing is found |
| XmlMapper.MapRecordToMcp | src/core/xmlMapper.ts:49-145 | the step-by-step mapping equals the record mapping specification |
| XmlMapper.Outcomes | src/core/xmlMapper.ts:30-40 | one outcome per record entry |
| XmlMapper.OutcomesAt | src/core/xmlMapper.ts:30-40 | outcome `i` is the mapping of entry `i` at index `i` |
| XmlMapper.ParseRecords | src/core/xmlMapper.ts:5-47 | a parse error fails with `XML parsing failed: ` and the error; a document without a root fails; a document yields at most one record per entry, and none when it has no record list |
| XmlMapper.ParseNdlXmlToRecords | src/core/xmlMapper.ts:5-47 | the method equals the parsing specification |
| XmlMapper.MapAll | src/core/xmlMapper.ts:28-42 | the loop keeps, in order, exactly the entries that map |
| XmlMapper.MapStep | src/core/xmlMapper.ts:32-35 | one step appends the mapped record when there is one and otherwise skips the entry |
| XmlMapper.MappedInOrder | src/core/xmlMapper.ts:28-42 | every output record is the mapping of an entry at strictly increasing positions, and every entry that maps appears in the output, so a failing entry drops only itself |
| XmlMapper.SingleRecordLikeList | src/core/xmlMapper.ts:24-26 | a single record and a one-element list holding it give the same records |
| SearchNdl.NormalizeParams | src/adapters/searchNDL.ts:15-32 | the CQL is kept; `maximumRecords` wins over the legacy `maxRecords` and 20 is the default; start record 1 and schema `recordSchema ?? format ?? "dcndl"` by default |
| SearchNdl.NextGreater | src/adapters/searchNDL.ts:69 | the position found is the first `>` at or after the start, and none is found only when there is none |
| SearchNdl.LazyClose | src/adapters/searchNDL.ts:69 | the lazy `(.*?)` stops at the first `</dc:language>` (any case) reached before any line terminator |
| SearchNdl.LanguageMatch | src/adapters/searchNDL.ts:69 | a match is an opening tag (any case), attributes up to the first `>`, then text without line terminators up to the first closing tag |
| SearchNdl.LanguageIn | src/adapters/searchNDL.ts:63-73 | a captured language never contains a line terminator |
| SearchNdl.ConvertToNdlRecord | src/adapters/searchNDL.ts:51-61 | the record keeps the id, the title and creators as text, a date exactly when `pub_date` is present (a text date as its text, an element or array date whole), the language taken from the raw record XML, source `NDL` and the mapper record as `raw` |
| SearchNdl.ConvertAll | src/adapters/searchNDL.ts:48 | each mapper record is converted, one to one, in order |
| SearchNdl.ForwardsQueryAndCount | src/adapters/searchNDL.ts:34-42 | every request carries the CQL and the normalised count, or 20 when that is 0 |
| SearchNdl.IgnoresStartAndSchema | src/adapters/searchNDL.ts:34-49 | the start record, the schema and the format change nothing in the search |
| SearchNdl.ConvertsOneToOne | src/adapters/searchNDL.ts:34-49 | on success the connector succeeded, the XML parsed, and the records are the parsed records converted one to one in order |
| SearchNdl.ConnectorErrorsPropagate | src/adapters/searchNDL.ts:42 | a 4xx from the connector surfaces with the connector's status message |
| Publisher.PublishBatch | src/adapters/publisher.http.ts:67-180 | the attempt loop yields the result and the post/pause trace of the batch specification |
| Publisher.ResumeStep | src/adapters/publisher.http.ts:87-176 | one attempt posts once, then returns, throws, gives up with the exhausted message on the last attempt, or pauses and tries again |
| Publisher.ResumeExhausted | src/adapters/publisher.http.ts:179 | past the last attempt the call fails with `failed after N retries: undefined` |
| Publisher.BatchesPartition | src/adapters/publisher.http.ts:21-45 | the batches concatenate back to the input, each holds 1 to 50 records, all but the last exactly 50, and there are `ceil(n/50)` of them |
| Publisher.SplitIntoBatches | src/adapters/publisher.http.ts:42-45 | the slicing loop yields the batches |
| Publisher.PrependAssoc | src/adapters/publisher.http.ts:47-58 | folding two batches' results one after the other equals folding their combination |
| Publisher.PublishToMcp | src/adapters/publisher.http.ts:26-65 | the method yields the result and trace of the publish specification |
| Publisher.PublishBatches | src/adapters/publisher.http.ts:50-59 | the batch loop yields the aggregate of the batches' outcomes |
| Publisher.PrependNothing | src/adapters/publisher.http.ts:47-48 | starting from success with no results changes nothing |
| Publisher.PrependOntoEnd | src/adapters/publisher.http.ts:61-64 | after the last batch the call returns the accumulated success and results |
| Publisher.AggregateStep | src/adapters/publisher.http.ts:50-59 | a batch that throws ends the call with its error; otherwise its results are appended and its success joins the conjunction |
| Publisher.EmptyInputSendsNothing | src/adapters/publisher.http.ts:30-32 | no records: success, no results, nothing sent |
| Publisher.AggregateOk | src/adapters/publisher.http.ts:50-64 | when no batch throws, the results are the batches' results in order and success is the conjunction of theirs |
| Publisher.AggregateAborts | src/adapters/publisher.http.ts:54 | the first batch that throws ends the call with its error and no later batch is posted |
| Publisher.BatchPostsOwnNumber | src/adapters/publisher.http.ts:82-99 | every post of a batch carries that batch's records |
| Publisher.BelowFourHundredPassesThrough | src/adapters/publisher.http.ts:102-104 | a status below 400 returns the body as it is after one post |
| Publisher.Unauthorized | src/adapters/publisher.http.ts:107-114 | a 401 is final after one post: an error under strict authentication, an empty success otherwise |
| Publisher.ClientErrorNotRetried | src/adapters/publisher.http.ts:117-158 | any other 4xx throws its status message after one post |
| Publisher.ExhaustsRetries | src/adapters/publisher.http.ts:87-176 | retryable failures on every attempt post `retries + 1` times with the pauses between and fail with the last attempt's error |
| Publisher.NetworkFailureExhausts | src/adapters/publisher.http.ts:141-151 | network failures on every attempt end in `failed after N retries` with the last message, after `2N + 1` events |
| Publisher.ScheduleLength | src/adapters/publisher.http.ts:87-146 | `k` posts with pauses between make `2k - 1` events |
| Publisher.DefaultPauses | src/adapters/publisher.http.ts:144 | with the two retries and 200 ms base of lines 23-24, the pauses are 200 and 600 ms, and every later pause is 600 ms |
| Publisher.BearerHeader | src/adapters/publisher.http.ts:73-80 | JSON content type always; `Authorization: Bearer <token>` exactly when the token is not empty |
| SearchStrategy.ExtractMainSubject | src/core/searchStrategy.ts:90-96 | the subject is the first piece of the split that is longer than one unit and not a noise word, or `日本` when there is none; either way it is longer than one unit, not a noise word and free of separators |
| SearchStrategy.FirstSubjectWord | src/core/searchStrategy.ts:93-95 | the first kept piece is the first piece passing the filter, none exactly when no piece passes, and the default `日本` itself passes |
| SearchStrategy.DetermineSearchType | src/core/searchStrategy.ts:98-109 | biography exactly when a biography keyword occurs; historical exactly when none does and a history keyword occurs; academic exactly when neither does and a research keyword occurs |
| SearchStrategy.ExpandRelatedTerms | src/core/searchStrategy.ts:111-113 | the entry of the related-terms dictionary (lines 20-25) for the subject, or nothing |
| SearchStrategy.ExtractTimeContext | src/core/searchStrategy.ts:115-129 | a context exactly when some pattern occurs, and then the context of the first such pattern |
| SearchStrategy.AnalyzeSearchIntent | src/core/searchStrategy.ts:45-66 | every part of the intent is computed from the trimmed query, the related terms from the subject |
| SearchStrategy.DescriptionTerms | src/core/searchStrategy.ts:225-232 | four description terms for each specific type, three for a general one |
| SearchStrategy.RelevantNdc | src/core/searchStrategy.ts:243-260 | `210` always, `280` exactly for biographies, `210.3` exactly for the ancient-history context, and nothing else |
| SearchStrategy.GenerateSubjectBasedQueries | src/core/searchStrategy.ts:131-163 | the loop yields the subject phase's candidates |
| SearchStrategy.GenerateTitleDescriptionQueries | src/core/searchStrategy.ts:165-189 | the loop yields the title/description phase's candidates |
| SearchStrategy.GetRelevantNdc | src/core/searchStrategy.ts:243-260 | the method yields the NDC classes |
| SearchStrategy.GenerateClassificationQueries | src/core/searchStrategy.ts:191-207 | the loop yields one NDC candidate per class |
| SearchStrategy.GenerateRelatedLiteratureQueries | src/core/searchStrategy.ts:209-223 | the loop yields one title candidate per related term |
| SearchStrategy.GenerateCqlCandidates | src/core/searchStrategy.ts:71-88 | the four phases concatenated and stably sorted by descending priority |
| SearchStrategy.CandidateCount | src/core/searchStrategy.ts:131-223 | the number of candidates is two, plus two per related term, one for a time context, one per description term and one per NDC class |
| SearchStrategy.CandidatesOrdered | src/core/searchStrategy.ts:87 | the candidates are in non-increasing priority and are a permutation of the phases' candidates |
| SearchStrategy.CandidatesStable | src/core/searchStrategy.ts:87 | candidates of equal priority keep the order the phases produced |
| SearchStrategy.PrimaryIsUniqueTop | src/core/searchStrategy.ts:135-140 | the first phase candidate is the subject-primary one at 100 and every other has less |
| SearchStrategy.PrimaryComesFirst | src/core/searchStrategy.ts:71-88 | `subject="<main>"` at priority 100 is always the first candidate |
| ResultScoring.SubjectMatch | src/core/resultScoring.ts:81-107 | the score lies in 0..100; it is 0 exactly when the strategy is not a subject one and the title contains neither the main subject nor any related term; a subject strategy scores at least 80, and 100 when the title also names the subject |
| ResultScoring.CalculateSubjectScore | src/core/resultScoring.ts:81-107 | the loop that stops at the first related term found computes the subject score |
| ResultScoring.CreatorMatch | src/core/resultScoring.ts:150-169 | no creators score 0; the score is 0, 10, 30 or 40; the 10 for several creators is there exactly when there is more than one |
| ResultScoring.YearBonus | src/core/resultScoring.ts:194-201 | the year bonus is 0, 10 or 20 |
| ResultScoring.TemporalMatch | src/core/resultScoring.ts:171-204 | the score lies in 50..100; with no time context and no date object it is 50; a title naming the time context scores at least 90 |
| ResultScoring.CalculateTemporalScore | src/core/resultScoring.ts:171-204 | the loop that stops at the first era keyword computes the temporal score |
| ResultScoring.RecentYearBonus | src/core/resultScoring.ts:194-197 | an object date whose `_` text has a year part of 2000 or later earns 20 |
| ResultScoring.ParseDigits | src/core/resultScoring.ts:195 | `parseInt` of a run of digits is its decimal value |
| ResultScoring.LeadingDigitsAll | src/core/resultScoring.ts:195 | a run of digits is read whole |
| ResultScoring.ParseHexDigits | src/core/resultScoring.ts:195 | `parseInt` of `0x` and a run of hexadecimal digits is their value in base 16 |
| ResultScoring.ParseHexPrefixOnly | src/core/resultScoring.ts:195 | `parseInt` of `0x` not followed by a hexadecimal digit is `NaN`, so no year bonus |
| ResultScoring.LeadingHexDigitsAll | src/core/resultScoring.ts:195 | a run of hexadecimal digits is read whole |
| ResultScoring.HexYearBonus | src/core/resultScoring.ts:194-197 | an object date whose `_` text has a year part written `0x…` with a hexadecimal value of 2000 or more earns 20 |
| ResultScoring.SplitOnPrefix | src/core/resultScoring.ts:195 | the first piece of `w-rest` split on `-` is `w` |
| ResultScoring.QualityMatch | src/core/resultScoring.ts:206-233 | the score lies in 30..100, and is 30 exactly when the title has no academic keyword, institution, collected-works word or volume number |
| ResultScoring.CalculateQualityScore | src/core/resultScoring.ts:206-256 | the method with the academic-keyword scan computes the quality score |
| ResultScoring.LanguageMatch | src/core/resultScoring.ts:235-247 | unknown language 50; exactly `jpn` 100, `chi` 80, `eng` 60; any other language 40 |
| ResultScoring.ScoreAndRankOrdered | src/core/resultScoring.ts:45-53 | one scored result per record carrying that record's relevance, a permutation of the scored input, in non-increasing relevance, equal scores in input order |
| ResultScoring.NormalizeTitle | src/core/resultScoring.ts:278-284 | the normal form has no brackets and no capitals, its only white space is single spaces, and it neither starts nor ends with white space |
| ResultScoring.TrimmedShape | src/core/resultScoring.ts:283 | trimming keeps a collapsed, bracket-free, lower-case text so |
| ResultScoring.SliceKeepsShape | src/core/resultScoring.ts:283 | a contiguous piece of such a text keeps its shape |
| ResultScoring.LoweredRemoved | src/core/resultScoring.ts:280-281 | after lower-casing and bracket removal no bracket or capital remains |
| ResultScoring.CollapsedCharacters | src/core/resultScoring.ts:282 | collapsing white space keeps the characters free of brackets and capitals and leaves only single spaces |
| ResultScoring.TrimIsSlice | src/core/resultScoring.ts:283 | the trimmed text is a contiguous piece of the original |
| ResultScoring.NormalizeIgnoresCase | src/core/resultScoring.ts:278-284 | titles differing only in letter case normalise alike |
| ResultScoring.NormalizeIgnoresBracket | src/core/resultScoring.ts:281 | a bracket anywhere in a title does not change its normal form |
| ResultScoring.DropRemovedChar | src/core/resultScoring.ts:281 | removing characters drops a removed character wherever it stands |
| ResultScoring.NormalizeIgnoresLeadingSpace | src/core/resultScoring.ts:282-283 | a space before a title does not change its normal form |
| ResultScoring.DeduplicateResults | src/core/resultScoring.ts:261-276 | the loop with the seen-set keeps the first result per normalised title |
| ResultScoring.DeduplicateKeepsFirst | src/core/resultScoring.ts:261-276 | the kept results come from the input with pairwise distinct normal titles, every input title is represented, the first result for a title is kept, and de-duplicating a longer input extends the result |
| ResultScoring.DedupTitlesDistinct | src/core/resultScoring.ts:269-272 | no two kept results share a normal title |
| ResultScoring.DedupTitlesCover | src/core/resultScoring.ts:265-273 | every input title is represented among the kept results |
| SearchBySubject.BuildCql | src/mcp/tools/searchBySubject.ts:75-80 | a blank additional subject gives the single `subject="S"` clause; otherwise the trimmed additional subject is OR-ed as a second subject clause |
| SearchBySubject.CqlIgnoresSurroundingSpace | src/mcp/tools/searchBySubject.ts:76-77 | white space around the additional subject never changes the query |
| SearchBySubject.SubjectScore | src/mcp/tools/searchBySubject.ts:137-173 | the comparator score lies in 0..48; a title holding both subjects scores at least 38, one without the main subject at most 18, and with no additional subject the score is at most 20 |
| SearchBySubject.SortBySubjectRelevance | src/mcp/tools/searchBySubject.ts:137-173 | the caller's array is sorted in place: afterwards it holds the stable descending sort of its old contents by the subject score |
| SearchBySubject.BothSubjectsBeforeOthers | src/mcp/tools/searchBySubject.ts:147-171 | after the sort every title lacking the main subject comes after every title holding both subjects |
| SearchByTitle.BuildCql | src/mcp/tools/searchByTitle.ts:67-72 | a blank additional title gives the single `title="T"` clause; otherwise the trimmed additional title is AND-ed as a second title clause |
| SearchByTitle.CqlIgnoresSurroundingSpace | src/mcp/tools/searchByTitle.ts:68-69 | white space around the additional title never changes the query |
| SearchByTitle.LengthBonus | src/mcp/tools/searchByTitle.ts:137-139 | the shortness bonus, in tenths, lies in 0..50, is 0 from 50 characters on and grows by one per character saved below that |
| SearchByTitle.TitleScore | src/mcp/tools/searchByTitle.ts:115-151 | the score, in tenths, is at least the length bonus and at most 580; an exact (case-blind) match scores at least 350 beyond the bonus, and a title not starting with the query at most 230 |
| SearchByTitle.SortByTitleRelevance | src/mcp/tools/searchByTitle.ts:115-151 | the caller's array is sorted in place: afterwards it holds the stable descending sort of its old contents by the title score |
| SearchByTitle.ExactMatchesBeforeOthers | src/mcp/tools/searchByTitle.ts:125-149 | after the sort every title that does not start with the query comes after every exact match |
| SearchByTitle.HandleSearchByTitle | src/mcp/tools/searchByTitle.ts:60-113 | the handler's answer, connector trace and publish events are those of the shared tool run with the title CQL and the title score |
| SearchByTitle.SearchesUnvalidatedCql | src/mcp/tools/searchByTitle.ts:67-77 | each request sent carries the built CQL unvalidated; a title holding `*` is sent although the validator would refuse that query |
| SearchByTitle.WildcardTitleRefused | src/core/queryValidator.ts:16-31 | a title holding `*` makes a query the validator refuses |
| SearchByDescription.BuildCql | src/mcp/tools/searchByDescription.ts:67-72 | a blank keyword gives the single `description="D"` clause; otherwise the trimmed keyword is AND-ed as a title clause |
| SearchByDescription.CqlIgnoresSurroundingSpace | src/mcp/tools/searchByDescription.ts:68-69 | white space around the keyword never changes the query |
| SearchByDescription.DescriptionScore | src/mcp/tools/searchByDescription.ts:115-143 | the score lies in 0..20; a title holding the keyword and the description scores at least 15, a title without the keyword at most 10 |
| SearchByDescription.SortByDescriptionRelevance | src/mcp/tools/searchByDescription.ts:115-143 | the caller's array is sorted in place: afterwards it holds the stable descending sort of its old contents by the description score |
| SearchByDescription.FullMatchesBeforeOthers | src/mcp/tools/searchByDescription.ts:125-141 | after the sort every title lacking the keyword comes after every title holding both the keyword and the description |
| SearchByDescription.HandleSearchByDescription | src/mcp/tools/searchByDescription.ts:60-113 | the handler's answer, connector trace and publish events are those of the shared tool run with the description CQL and score |
| SearchByDescription.QueryOutsideWhitelist | src/mcp/tools/searchByDescription.ts:67-77 | every query the tool builds starts with a field the validator does not allow, so the validator would refuse every one of them |
| SearchByDescription.SearchesBuiltQuery | src/mcp/tools/searchByDescription.ts:61-77 | each request sent carries the built query and the tool's record count, 20 by default |
| ToolRecords.UnderscoreDate | src/mcp/tools/searchByTitle.ts:158 | an object date becomes its `_` part (or none), any other date is kept, and the result is never an object |
| ToolRecords.ConvertToMcpRecord | src/mcp/tools/searchByTitle.ts:153-168 | the published record carries the id (also as NDLBibID), title, creators or none, the date text, no subjects, provider NDL and the conversion time; the raw record is there exactly when the tool keeps it |
| ToolRecords.PublishGuard | src/mcp/tools/searchByDescription.ts:83-91 | nothing is published without the flag or without records; otherwise the first request posts the first slice of at most fifty converted records |
| ToolRecords.SortAndPublish | src/mcp/tools/searchByTitle.ts:80-108 | the method sorting on an array, converting and publishing gives the answer and publish events of the specification |
| ToolRecords.Run | src/mcp/tools/searchByDescription.ts:60-113 | the method running search, sort, publish and format gives the answer, connector trace and publish events of the specification |
| ToolRecords.RunResult | src/mcp/tools/searchByTitle.ts:77-108 | on success the query is the CQL, the count is the number of records, and the records are the search's records as a permutation sorted by descending score, equal scores in search order |
| ToolRecords.RunIgnoresPublishing | src/mcp/tools/searchByTitle.ts:84-91 | whether and how publishing fails never changes the tool's answer |
| ToolRecords.RunSearchesCql | src/mcp/tools/searchByTitle.ts:77 | each request sent carries the CQL as built and the record count, 20 when it is 0 |
| DataFormatter.FirstFourDigitsFrom | src/adapters/ndlDataFormatter.ts:40 | the leftmost start of four digits at or after a position, and none exactly when no such position exists |
| DataFormatter.FirstYear | src/adapters/ndlDataFormatter.ts:40-44 | the result is four digits found at the leftmost position where four digits start, and is absent exactly when the text holds no four consecutive digits |
| DataFormatter.PublicationYear | src/adapters/ndlDataFormatter.ts:36-47 | no date, or an object date without `_`, gives no year; a text date, or the `_` of an object date, gives its first four-digit run |
| DataFormatter.BuildNdlUrl | src/adapters/ndlDataFormatter.ts:78-90 | an `ndl:` id points at the book page with the prefix removed; any other id at the search page with the percent-encoded id; `#` when encoding fails |
| DataFormatter.BookUrlRoundTrip | src/adapters/ndlDataFormatter.ts:81-83 | the book page URL of `ndl:` + id starts with the book page prefix, and what follows it gives the id back |
| DataFormatter.ExtractCleanBookData | src/adapters/ndlDataFormatter.ts:29-72 | the clean record has the title or the `タイトル不明` placeholder (never empty), the creators or none, the publication year of the date, no publisher, no subjects, a non-empty description or none, and the record's URL |
| DataFormatter.FormattedResult | src/adapters/ndlDataFormatter.ts:95-106 | the serialised structure carries the total given and one clean record per input record, in order |
| DataFormatter.FormatOf | src/adapters/ndlDataFormatter.ts:108-119 | YAML is chosen exactly for `yaml`; every other value gives JSON |
| DataFormatter.EnhanceToolOutput | src/adapters/ndlDataFormatter.ts:125-139 | no format (absent or empty) returns the output unchanged; count and records are always kept, and with a format the rendering of the records under the count is added |
| DataFormatter.CleanBookOfNdlRecord | src/adapters/ndlDataFormatter.ts:38-83 | a record with an `ndl:` id and a text date starting with a year gets its book page and that year |
| IntentAnalyzer.ExtractMainSubjects | src/core/intentAnalyzer.ts:99-114 | empty exactly when the query names neither 聖徳太子 nor 飛鳥時代; each of the two is in the list exactly when the query names it; 聖徳太子's group comes first; nothing outside the two groups appears |
| IntentAnalyzer.DetermineScope | src/core/intentAnalyzer.ts:116-130 | biography exactly when a life word appears; historical context exactly when no life word but a history word does; academic research and primary sources likewise down the precedence; general otherwise |
| IntentAnalyzer.ExpandSynonyms | src/core/intentAnalyzer.ts:139-150 | empty exactly when the query does not name 聖徳太子; otherwise the six related titles, 聖徳太子伝 first and 十七条憲法 among them |
| IntentAnalyzer.RuleBasedAnalysis | src/core/intentAnalyzer.ts:84-137 | the query is its own intent, the relationship direct, no temporal context, the ten noise terms excluded, and subjects, scope and priority terms from the three rules |
| IntentAnalyzer.SpacesEnd | src/core/intentAnalyzer.ts:154 | the greedy `\s*` run from a position ends at the first non-space character |
| IntentAnalyzer.LineEnd | src/core/intentAnalyzer.ts:154 | the greedy `.` run from a position ends at the first line terminator |
| IntentAnalyzer.WordEnd | src/core/intentAnalyzer.ts:164 | the greedy `\w` run from a position holds only word characters |
| IntentAnalyzer.DotStart | src/core/intentAnalyzer.ts:154 | when backtracking `\s*` the `.+` starts at a non-terminator within the space run |
| IntentAnalyzer.ColonFrom | src/core/intentAnalyzer.ts:159 | the first colon at or after a position |
| IntentAnalyzer.TailCapture | src/core/intentAnalyzer.ts:154-164 | a captured group is never empty; a line capture holds no line terminator, a word capture only word characters |
| IntentAnalyzer.CaptureFrom | src/core/intentAnalyzer.ts:154-183 | the capture at the leftmost marker that matches has the same shape, and there is none when the marker never occurs |
| IntentAnalyzer.TrimmedParts | src/core/intentAnalyzer.ts:160 | splitting on commas always gives at least one part |
| IntentAnalyzer.ListAfter | src/core/intentAnalyzer.ts:158-184 | the parsed list is empty exactly when the reply has no matching `marker:` line |
| IntentAnalyzer.ListItemsTrimmed | src/core/intentAnalyzer.ts:160-183 | every parsed list element is trimmed and holds no comma |
| IntentAnalyzer.ExtractTrueIntent | src/core/intentAnalyzer.ts:153-156 | without a `真の意図:` line the whole reply is the intent; with one, the intent is trimmed |
| IntentAnalyzer.WholeReplyWithoutLabel | src/core/intentAnalyzer.ts:153-156 | a reply that never mentions `真の意図:` is returned whole |
| IntentAnalyzer.ScopeIsBiographyOrGeneral | src/core/intentAnalyzer.ts:163-169 | since `\w` stops at `-`, a parsed scope is only ever biography or general, and biography exactly when the word read is `biography` |
| IntentAnalyzer.ExtractTemporalContext | src/core/intentAnalyzer.ts:171-174 | present exactly when the reply has a `時代背景:` line, and then trimmed |
| IntentAnalyzer.ParseIntentResponse | src/core/intentAnalyzer.ts:67-82 | the intent keeps the query, is direct, has scope biography or general, and its subjects and priority terms are trimmed |
| IntentAnalyzer.AnalyzeSearchIntent | src/core/intentAnalyzer.ts:22-40 | no client, a failed call or an empty answer fall back to the rules; otherwise the first explanation is parsed; the query is always kept and the relationship direct |
| IntelligentFilter.ValidateContentType | src/core/intelligentFilter.ts:172-175 | a listed name stands for the type of that name; any other text is tangential |
| IntelligentFilter.ContentTypeRoundTrip | src/core/intelligentFilter.ts:172-175 | every content type is read back from its own name |
| IntelligentFilter.ClassifyByRules | src/core/intelligentFilter.ts:233-250 | on the lower-cased title: primary source exactly when a source word appears, academic study exactly when none but a study word does, and so on down the precedence to tangential; the rules never answer irrelevant |
| IntelligentFilter.IndicatorTests | src/core/intelligentFilter.ts:255-260 | one test per quality label |
| IntelligentFilter.Picked | src/core/intelligentFilter.ts:253-262 | the labels picked are drawn from the label list and are no more than it |
| IntelligentFilter.PickedExactly | src/core/intelligentFilter.ts:253-262 | for labels with distinct first characters a label is picked exactly when its flag is set, and none twice |
| IntelligentFilter.QualityIndicators | src/core/intelligentFilter.ts:252-263 | every indicator is one of the five labels |
| IntelligentFilter.QualityIndicatorsExact | src/core/intelligentFilter.ts:252-263 | each label is given exactly when its test passes (大学, 研究, 史料, 全集 or 選集, more than one creator), and none twice |
| IntelligentFilter.Clamp | src/core/intelligentFilter.ts:230 | the clamp lands in 0..10 tenths and leaves scores already there alone |
| IntelligentFilter.CalculateRuleBasedRelevance | src/core/intelligentFilter.ts:195-231 | the method with its three early-exit scans computes the relevance specification, which lies in 0..10 tenths |
| IntelligentFilter.DirectlyRelatedCases | src/core/intelligentFilter.ts:186-231 | a record is directly related (above 7 tenths) exactly when, without an excluded concept, a subject matches or a priority term meets the biography bonus, or, with one, all three gains are present |
| IntelligentFilter.ExcludedAlone | src/core/intelligentFilter.ts:195-231 | an excluded concept with no gain leaves the record at 1 tenth |
| IntelligentFilter.RuleBasedFiltering | src/core/intelligentFilter.ts:177-193 | one result per record in input order, carrying the record unchanged, its relevance, directly related exactly above 7 tenths, its rule class and its indicators |
| IntelligentFilter.FilterAndAnalyzeResults | src/core/intelligentFilter.ts:23-52 | without a model or without records the rules decide (no records give none); otherwise the model's path does |
| IntelligentSearch.ScopeQueries | src/core/intelligentSearch.ts:161-217 | biography and academic research add two queries, primary sources one, historical context one plus one with a temporal context, general none; all are scope-specific |
| IntelligentSearch.GenerateSearchQueries | src/core/intelligentSearch.ts:117-159 | the method with its two capped loops builds the query plan |
| IntelligentSearch.PlanLength | src/core/intelligentSearch.ts:117-159 | the plan has at most two subject queries, at most three priority queries, the scope queries, the temporal query only with a temporal context and a subject, and ends with the fallback query |
| IntelligentSearch.PlanLeads | src/core/intelligentSearch.ts:121-136 | the plan opens with one subject query per leading target subject, then one title query per leading priority term |
| IntelligentSearch.FallbackOnlyLast | src/core/intelligentSearch.ts:151-156 | no query before the last one is a fallback |
| IntelligentSearch.RunStage | src/core/intelligentSearch.ts:284-302 | a stage that runs keeps its query's text and stage name |
| IntelligentSearch.AllResultsSnoc | src/core/intelligentSearch.ts:304 | adding a stage appends its results to the collected results |
| IntelligentSearch.ParallelSearch | src/core/intelligentSearch.ts:219-264 | one stage per query in order, a throwing query giving an empty stage; the results are the stages' results in order; one model call per query when there is a model |
| IntelligentSearch.ExecuteSequentialSearch | src/core/intelligentSearch.ts:266-316 | the loop with its early stop computes the sequential search |
| IntelligentSearch.SequentialKeeps | src/core/intelligentSearch.ts:277-309 | the loop keeps its invariant: results are its stages' results, each stage started below the total, no more stages than queries, one model call per stage with a model |
| IntelligentSearch.SequentialSearchFacts | src/core/intelligentSearch.ts:266-316 | the sequential search from nothing ends with those facts |
| IntelligentSearch.NothingWantedNothingRun | src/core/intelligentSearch.ts:279-282 | with a total of zero or less no query runs |
| IntelligentSearch.ConsolidateResults | src/core/intelligentSearch.ts:318-343 | the dedup, filter and sort method computes the consolidation |
| IntelligentSearch.ConsolidatedFacts | src/core/intelligentSearch.ts:318-376 | the consolidated results come from the input, have distinct normalised titles and at least the threshold relevance, are ordered by final score, and include every first-per-title input at or above the threshold |
| IntelligentSearch.SliceTo | src/core/intelligentSearch.ts:106 | `slice(0, n)` gives a prefix, of length n capped by the list when n is not negative |
| IntelligentSearch.ExecuteIntelligentSearch | src/core/intelligentSearch.ts:59-115 | the method computes the intelligent search's result |
| IntelligentSearch.FinalResultsTruncated | src/core/intelligentSearch.ts:96-114 | the final results are a prefix of the consolidated list cut to the total while the reported total is the uncut count; without a model no call is counted and no semantic filtering is reported; the stage count is the number of stages |
| IntelligentSearch.StagesByPath | src/core/intelligentSearch.ts:81-93 | the parallel path runs every planned query and is taken only when enabled with at most three queries; the sequential path runs at most the plan and starts every stage below the total |
| IntelligentSearch.FinalResultsDistinct | src/core/intelligentSearch.ts:318-343 | every final result came from a stage, reaches the threshold, and no two share a normalised title |
| SearchBooks.EscapeQuotes | src/mcp/tools/searchBooks.ts:280 | escaping never shortens a keyword, and a non-empty keyword's escape is non-empty and does not start with a quote |
| SearchBooks.UnescapeEscape | src/mcp/tools/searchBooks.ts:280 | escaping loses nothing: reading the escaped keyword back gives the keyword |
| SearchBooks.EscapedQuotesGuarded | src/mcp/tools/searchBooks.ts:280 | every quote in an escaped keyword has a backslash in front of it |
| SearchBooks.EscapedEndsClean | src/mcp/tools/searchBooks.ts:280 | a keyword without backslashes escapes to one that does not end in a backslash |
| SearchBooks.EscapedChars | src/mcp/tools/searchBooks.ts:280 | escaping adds backslashes and nothing else |
| SearchBooks.EscapeConcat | src/mcp/tools/searchBooks.ts:280 | escaping a concatenation escapes each part |
| SearchBooks.EscapeQuoteFree | src/mcp/tools/searchBooks.ts:280 | a keyword without quotes escapes to itself |
| SearchBooks.EscapeAfterQuoteFree | src/mcp/tools/searchBooks.ts:280 | after a quote-free start, a quote gains its backslash and the rest is escaped on its own |
| SearchBooks.Tokens | src/mcp/tools/searchBooks.ts:276-279 | every word kept from the trimmed, split query is longer than one unit |
| SearchBooks.Decompose | src/mcp/tools/searchBooks.ts:288-305 | each keyword contributes one or two keywords |
| SearchBooks.FlattenSnoc | src/mcp/tools/searchBooks.ts:287-306 | pushing a keyword's pieces appends them to the flattened list |
| SearchBooks.SimplifiedStep | src/mcp/tools/searchBooks.ts:288-306 | one more loop turn appends that keyword's decomposition |
| SearchBooks.PushDecomposed | src/mcp/tools/searchBooks.ts:289-305 | one loop turn appends exactly the keyword's decomposition |
| SearchBooks.BuildFallbackCql | src/mcp/tools/searchBooks.ts:312-321 | the method gives `title="日本"` for no keyword, one title clause for one, two OR-ed clauses for two |
| SearchBooks.CreateSafeFallbackCql | src/mcp/tools/searchBooks.ts:274-322 | escaping every word, dropping noise words, the decomposition loop, de-duplication and the cut to two give the fallback CQL in the code's order (escape, then cut to four units; see Findings) |
| SearchBooks.DecompositionsPlain | src/mcp/tools/searchBooks.ts:291-298 | the fixed decompositions are plain keywords |
| SearchBooks.ShortDecompositionsPlain | src/mcp/tools/searchBooks.ts:292-294 | the two- and one-piece decompositions for 明王朝 and 税制度 are plain |
| SearchBooks.OtherDecompositionsPlain | src/mcp/tools/searchBooks.ts:295-298 | the decompositions for 機械学習 and 伝統医学 are plain |
| SearchBooks.DecomposePlain | src/mcp/tools/searchBooks.ts:288-305 | a separator-free, non-noise word longer than one unit decomposes into plain keywords (two to four units, no separator, not noise), and an ASCII character the word lacks is in none of them |
| SearchBooks.SplitWhereChars | src/mcp/tools/searchBooks.ts:278 | the pieces of a split hold only characters of the split string |
| SearchBooks.TrimChars | src/mcp/tools/searchBooks.ts:277 | trimming only removes characters |
| SearchBooks.FlattenMember | src/mcp/tools/searchBooks.ts:287-306 | every word of the flattened list sits in one of the pieces |
| SearchBooks.SimplifiedPlain | src/mcp/tools/searchBooks.ts:276-306 | the decomposed keywords of the query's meaningful words are plain keywords, free of any ASCII character the query lacks |
| SearchBooks.TokensShape | src/mcp/tools/searchBooks.ts:276-279 | every word of the query is longer than one unit, holds no separator, and holds no character the query lacks |
| SearchBooks.SimplifiedOfMeaningful | src/mcp/tools/searchBooks.ts:287-306 | the decompositions of meaningful words are plain keywords and hold no ASCII character none of the words holds |
| SearchBooks.EscapeKeepsProperty | src/mcp/tools/searchBooks.ts:280 | a property of characters that the backslash and every unit of a word have holds of every unit of its escaping |
| SearchBooks.BackslashNotSeparator | src/mcp/tools/searchBooks.ts:278-280 | the backslash that escaping adds is no separator |
| SearchBooks.EscapedMeaningful | src/mcp/tools/searchBooks.ts:276-284 | a separator-free word longer than one unit, escaped, is a meaningful word unless it is a noise word |
| SearchBooks.FilteredEscapesMeaningful | src/mcp/tools/searchBooks.ts:280-284 | escaped words that pass the noise filter are meaningful words |
| SearchBooks.EscapedWordsMeaningful | src/mcp/tools/searchBooks.ts:276-284 | the query's escaped words that pass the noise filter are meaningful words |
| SearchBooks.FirstTwoDistinctPlain | src/mcp/tools/searchBooks.ts:308 | de-duplicating plain keywords and keeping the first two gives at most two distinct plain keywords |
| SearchBooks.FallbackKeywordsAsWrittenShape | src/mcp/tools/searchBooks.ts:274-308 | the keywords the code computes are at most two, pairwise distinct, and each a plain keyword (two to four units, no separator, not noise) |
| SearchBooks.QuoteFreeWords | src/mcp/tools/searchBooks.ts:276-306 | a query without a double quote has none in its words, before or after decomposition |
| SearchBooks.EscapeFreeWords | src/mcp/tools/searchBooks.ts:280 | escaping leaves a list of quote-free words unchanged |
| SearchBooks.QuoteFreeOrdersAgree | src/mcp/tools/searchBooks.ts:274-322 | for a query without a double quote the code's order and the cut-before-escape order give the same keywords and the same CQL |
| SearchBooks.KeywordOrigin | src/mcp/tools/searchBooks.ts:276-308 | with the cut made before escaping, each fallback keyword is the escaping of one decomposed keyword |
| SearchBooks.FallbackKeywordsShape | src/mcp/tools/searchBooks.ts:274-308 | with the cut made before escaping: at most two keywords, pairwise distinct, each unescaping to a plain keyword; with no backslash in the query none ends in a backslash, so every title clause closes |
| SearchBooks.TrimUnchanged | src/mcp/tools/searchBooks.ts:277 | a string whose ends are not white space is its own trim |
| SearchBooks.SplitWhereNone | src/mcp/tools/searchBooks.ts:278 | with no separator in it, the split gives the string itself |
| SearchBooks.IncludesFirstChar | src/mcp/tools/searchBooks.ts:291-297 | a string that includes a word holds that word's first character |
| SearchBooks.DecomposeCuts | src/mcp/tools/searchBooks.ts:299-301 | an ASCII word over four units is cut to its first four units |
| SearchBooks.SingleToken | src/mcp/tools/searchBooks.ts:276-279 | a separator-free query longer than one unit is a single word |
| SearchBooks.LongWordNotNoise | src/mcp/tools/searchBooks.ts:283-284 | no noise word is longer than four units |
| SearchBooks.SingleWordKeywords | src/mcp/tools/searchBooks.ts:283-306 | a single long ASCII word is kept and cut to its first four units |
| SearchBooks.SingleKeywordKept | src/mcp/tools/searchBooks.ts:308 | one keyword survives de-duplication and the cut to two unchanged |
| SearchBooks.EscapeAtFourth | src/mcp/tools/searchBooks.ts:280-301 | when a word's fourth unit is its first quote, the escape puts the backslash at the fourth unit |
| SearchBooks.DanglingBackslash | src/mcp/tools/searchBooks.ts:276-317 | as written, such a word (`abc"def`) yields the keyword `abc\` and the CQL `title="abc\"`, whose closing quote is escaped |
| SearchBooks.CutBeforeEscapeCloses | src/mcp/tools/searchBooks.ts:274-322 | cutting before escaping, the same word yields `abc\"` and a clause that closes |
| SearchBooks.ChooseCqlFacts | src/mcp/tools/searchBooks.ts:229-271 | what is chosen always validates and is a candidate's CQL with its strategy, or the fallback CQL under `simple-fallback`; the choice fails exactly when every candidate and the fallback are refused, with the all-failed message |
| SearchBooks.FallbackChoice | src/mcp/tools/searchBooks.ts:256-270 | after every rejection the fallback is chosen exactly when it validates; otherwise the failure carries the all-failed prefix |
| SearchBooks.ValidateFallback | src/mcp/tools/searchBooks.ts:256-270 | the method gives the fallback choice |
| SearchBooks.ChoosesFirstAccepted | src/mcp/tools/searchBooks.ts:238-252 | the first accepted candidate is chosen when all before it were refused |
| SearchBooks.FallbackOnlyAfterRejections | src/mcp/tools/searchBooks.ts:238-256 | when some candidate validates, the choice succeeds with an accepted candidate, never the fallback |
| SearchBooks.ValidateCandidate | src/mcp/tools/searchBooks.ts:239-248 | a candidate passes exactly when the validator accepts it, and then its CQL is handed back |
| SearchBooks.BuildCqlFromQueryWithStrategy | src/mcp/tools/searchBooks.ts:229-271 | the loop over candidates then the fallback computes the choice |
| SearchBooks.PrimaryChosenWhenAccepted | src/mcp/tools/searchBooks.ts:235-248 | with the strategy's own candidates, a subject query that validates is sent under `subject-primary` |
| SearchBooks.RankByPreferredLanguage | src/mcp/tools/searchBooks.ts:325-331 | the records in the preferred language first, then the others, each group in input order; a permutation of the input |
| SearchBooks.PreferredLanguageFirst | src/mcp/tools/searchBooks.ts:325-331 | the ranked list splits at one point: every record before it is in the preferred language, none after it |
| SearchBooks.RankIdempotent | src/mcp/tools/searchBooks.ts:325-331 | ranking a ranked list changes nothing |
| SearchBooks.ConvertToMcpRecord | src/mcp/tools/searchBooks.ts:334-348 | like the other tools' conversion keeping the serialised record, except that the date goes out as held; the two agree exactly when the date is not an object |
| SearchBooks.SimpleSearch | src/mcp/tools/searchBooks.ts:213-226 | fails exactly when the unvalidated fallback search fails; otherwise a permutation of its records |
| SearchBooks.ExecuteSimpleSearch | src/mcp/tools/searchBooks.ts:213-226 | the method computes the simple mode |
| SearchBooks.ChooseAdvancedCql | src/mcp/tools/searchBooks.ts:191-193 | the method analyses the query, generates candidates and computes their choice |
| SearchBooks.RefineResults | src/mcp/tools/searchBooks.ts:199-210 | the method scores, ranks, de-duplicates and language-ranks as specified |
| SearchBooks.SearchWithChosen | src/mcp/tools/searchBooks.ts:193-210 | the method searches with the chosen CQL, or passes on the failure |
| SearchBooks.AdvancedSearchesValidatedCql | src/mcp/tools/searchBooks.ts:187-211 | an answer of the advanced mode comes from a successful search with a CQL the validator accepted |
| SearchBooks.ExecuteAdvancedSearch | src/mcp/tools/searchBooks.ts:187-211 | the method computes the advanced mode |
| SearchBooks.RunEngine | src/mcp/tools/searchBooks.ts:170-182 | the method runs the engine with eight per query, the requested total, parallel on and threshold 4 tenths, and ranks by language |
| SearchBooks.ExecuteIntelligentSearch | src/mcp/tools/searchBooks.ts:150-185 | the method computes the intelligent mode |
| SearchBooks.IntelligentModeBounded | src/mcp/tools/searchBooks.ts:150-185 | unless the client fails to build, the intelligent mode answers with at most the requested number of records |
| SearchBooks.ClientFailureMeansAdvanced | src/mcp/tools/searchBooks.ts:155-166 | a configured client that fails to build makes the intelligent mode the advanced one |
| SearchBooks.SearchByMode | src/mcp/tools/searchBooks.ts:106-118 | the method dispatches on the mode as specified |
| SearchBooks.RespondFacts | src/mcp/tools/searchBooks.ts:120-145 | a failure reads `Search failed: ...` and publishes nothing; an answer carries the mode's records and their count; something is published only with the flag set and at least one record |
| SearchBooks.UnknownModeFails | src/mcp/tools/searchBooks.ts:116-145 | an unknown mode fails with its name and publishes nothing |
| SearchBooks.RespondTo | src/mcp/tools/searchBooks.ts:120-145 | the method publishes and answers as specified |
| SearchBooks.HandleSearchBooks | src/mcp/tools/searchBooks.ts:97-146 | the handler's answer and publish events are the specification's |
| SearchBooks.AnswerIgnoresPublishing | src/mcp/tools/searchBooks.ts:123-130 | the answer depends neither on the publish flag nor on how publishing goes |
| Metrics.Empty | src/middleware/metrics.ts:46-48 | a new map is coherent and holds no name |
| Metrics.Values | src/middleware/metrics.ts:130-141 | one value per name, in insertion order |
| Metrics.PutStores | src/middleware/metrics.ts:60-113 | setting a name keeps the map coherent, stores the value, adds exactly that name and leaves every other name alone |
| Metrics.PutNewAppends | src/middleware/metrics.ts:60-113 | a new name is iterated after all the older ones |
| Metrics.PutExistingInPlace | src/middleware/metrics.ts:113 | setting a present name replaces its value where it stands in the iteration order |
| Metrics.PutKeyed | src/middleware/metrics.ts:54-60 | storing a metric under its own name keeps every metric stored under its own name |
| Metrics.PointsOverOther | src/middleware/metrics.ts:179-180 | changing a counter outside the names counted leaves the point count alone |
| Metrics.PointsOverReplace | src/middleware/metrics.ts:179-180 | replacing one counted counter changes the point count by the difference of its points |
| Metrics.IncrementAddsOnePoint | src/middleware/metrics.ts:51-68 | `incrementCounter` (through the collector at lines 179-180) adds exactly one data point to the collector's total, whether or not the counter existed |
| Metrics.CountAtMostMonotone | src/middleware/metrics.ts:101-105 | a larger bound counts at least as many observations |
| Metrics.CountAtMostInfinity | src/middleware/metrics.ts:86-105 | the infinite bound counts every observation |
| Metrics.Observe | src/middleware/metrics.ts:101-105 | the bucket loop keeps the number of buckets |
| Metrics.NewHistogramEmpty | src/middleware/metrics.ts:75-96 | a fresh histogram summarises no observations |
| Metrics.RecordKeepsSummary | src/middleware/metrics.ts:101-108 | recording a value into a summary of some observations gives the summary of those observations plus the value: each bucket counts the observations at or below its bound, sum and count follow |
| Metrics.SummaryShape | src/middleware/metrics.ts:75-108 | in a summary the bucket counts never decrease along the bounds, and the last bucket is `+Inf` holding `count` |
| Metrics.ObserveBuckets | src/middleware/metrics.ts:101-105 | the loop bumping each bucket whose bound is at least the value computes the bucket update |
| Metrics.RecordValue | src/middleware/metrics.ts:100-108 | the bucket loop, then `sum` and `count`, record the value |
| Metrics.BucketLines | src/middleware/metrics.ts:153-156 | one line per bucket |
| Metrics.BlocksConcat | src/middleware/metrics.ts:141-167 | the export lines of two lists of metrics are the lines of the first then of the second |
| Metrics.BlocksLength | src/middleware/metrics.ts:141-167 | with n lines per metric the export has n lines per metric |
| Metrics.BlocksAt | src/middleware/metrics.ts:141-167 | with n lines per metric, metric i owns lines n·i to n·i+n |
| Metrics.CounterTotalLine | src/middleware/metrics.ts:141-146 | each counter's third line reports `name_total` with the sum of its point values |
| Metrics.InfinityLine | src/middleware/metrics.ts:150-159 | a histogram that summarises its observations exports fifteen lines, and its `le="+Inf"` line reports the number of observations |
| Metrics.ExportCounters | src/middleware/metrics.ts:141-146 | the counter loop emits the HELP, TYPE and total lines of each counter in order |
| Metrics.ExportHistogram | src/middleware/metrics.ts:150-159 | the lines of one histogram, with the inner bucket loop |
| Metrics.ExportHistograms | src/middleware/metrics.ts:149-160 | the histogram loop emits each histogram's block in order |
| Metrics.ExportGauges | src/middleware/metrics.ts:163-167 | the gauge loop emits each gauge's three lines in order |
| Metrics.RecordKeepsSummaries | src/middleware/metrics.ts:71-109 | `recordHistogram` keeps every histogram an exact summary of the values recorded under its name |
| Metrics.RecordKeepsHistograms | src/middleware/metrics.ts:71-109 | after `recordHistogram` the histogram map is still coherent, keyed by name and summarising |
| Metrics.MetricsCollector.constructor | src/middleware/metrics.ts:45-48 | a new collector is valid and has no counter, histogram or gauge |
| Metrics.MetricsCollector.IncrementCounter | src/middleware/metrics.ts:51-68 | the counter, created when missing, gains one point with the value, labels and time; nothing else changes, the collector stays valid |
| Metrics.MetricsCollector.RecordHistogram | src/middleware/metrics.ts:71-109 | the histogram, created with the eleven default buckets when missing, records the value; the recorded observations grow by it and every histogram still summarises them; nothing else changes |
| Metrics.MetricsCollector.SetGauge | src/middleware/metrics.ts:112-121 | the gauge of that name is replaced; nothing else changes |
| Metrics.MetricsCollector.ExportPrometheus | src/middleware/metrics.ts:137-170 | the text is the counter, histogram and gauge lines, in insertion order, joined by newlines |
| Metrics.MetricsCollector.GetStats | src/middleware/metrics.ts:173-188 | the three map sizes and the number of counter points |
| Metrics.MetricsCollector.Reset | src/middleware/metrics.ts:190-194 | all three maps emptied, the collector valid |
| SeqUtils.SortDescInPlace | src/mcp/tools/searchByTitle.ts:115-151 | the in-place `records.sort` with a descending comparator leaves the stable descending sort of the array's old contents |
| SeqUtils.SortDescSorted | src/mcp/tools/searchByTitle.ts:149 | the sort's output is in non-increasing key order |
| SeqUtils.SortDescPermutation | src/mcp/tools/searchByTitle.ts:116 | the sort's output is a permutation of its input |
| SeqUtils.SortDescStable | src/mcp/tools/searchBooks.ts:326 | the elements sharing one key keep their relative order, as the stable `Array.prototype.sort` does |
| SeqUtils.SortDescPartition01 | src/mcp/tools/searchBooks.ts:326-330 | with keys 0 and 1 only, the sort is the 1-keyed elements followed by the 0-keyed ones, each in input order |
| JsText.ToLower | src/core/resultScoring.ts:280 | lower-casing keeps the length and maps each character by itself |
| JsText.ToLowerIdempotent | src/core/resultScoring.ts:280 | lower-casing twice is lower-casing once |
| JsText.Trim | src/mcp/tools/searchBySubject.ts:76 | trimming never lengthens a text, and a non-empty trimmed text has no white space at either end |
| JsText.TrimIdempotent | src/mcp/tools/searchBySubject.ts:76-77 | trimming twice is trimming once |
| JsText.ParseInt | src/core/resultScoring.ts:195 | `parseInt` with no radix gives a number exactly when, after leading white space and an optional sign, either `0x`/`0X` and a hexadecimal digit follow, or (without that prefix) a decimal digit follows |
| JsText.SplitWhere | src/mcp/tools/searchBooks.ts:278 | splitting on a character class gives at least one piece, and no piece holds a separator |

## Left out

- Network I/O and timers are not performed. Each GET or POST attempt's outcome is the parameter `outcome`. Pauses are recorded in the returned trace instead of being slept. `Date.now()` and the ISO time stamps are the parameters `now` and `env.now`. Where one operation reads the clock twice, across an awaited call, each reading is its own parameter (`now` and `later` in `Cache.WithCache`).
- The cache's `setInterval` sweep is not modelled; the sweep is the explicit call `Cleanup(now)`. `destroy()` only stops that timer and clears the map, so it is modelled as `Clear`.
- `CacheKeyBuilder` is not modelled (src/middleware/cache.ts:140-157). Its keys are `Buffer` base64 encodings and JSON texts, which come from foreign code.
- Foreign libraries are parameters: the xml2js parser and `Builder`, `uuid` v4, `encodeURIComponent`, and the js-yaml and `JSON.stringify` renderers. The mapper starts from the tree the parser returns.
- The language-model paths are not modelled. This covers the OpenAI client, the prompt texts, and the filter's `analyzeBatch`, `parseBatchAnalysis` and `extractResultAnalysis`, which read numbers with `parseFloat`. The model's reply to the intent prompt is the parameter `LlmReply`, and the model-based filter is a parameter of `FilterAndAnalyzeResults`. Only the decisions between these paths and the rules are modelled.
- There is no concurrency. `executeParallelSearch` is modelled as running its queries one after another, keeping the order `Promise.all` preserves. Races between concurrent calls to the cache, the limiter or the fetch are not modelled.
- The floating-point scoring is not modelled:
  - the weighted sum in `scoreResult` and `calculateTitleScore`'s partial-match ratio (src/core/resultScoring.ts:55-79, 109-148);
  - `calculateFinalScore` (src/core/intelligentSearch.ts:345-368).
  The advanced mode ranks by a relevance key given as a parameter, and the engine's consolidation sorts by a final score given as a parameter.
- The rule-based relevance of the result filter is counted in tenths, and the semantic threshold is 4 tenths. For every combination of gains, the code's floating-point sums fall on the same side of 0.7 and of 0.4 as these sums in tenths.
- The title tool's comparator adds `(50 - length) / 10`. The model scores in tenths, which orders records as the code's sums do, up to floating-point rounding.
- JsText.ToLower: maps only ASCII capitals. JavaScript's `toLowerCase` also maps the capitals of other scripts. The Japanese keywords the rules look for have no case.
- A Dafny `char` is a Unicode scalar value; here it stands for one UTF-16 code unit. On text inside the Basic Multilingual Plane, lengths and the four-unit cuts then agree with JavaScript's. A character outside that plane is one `char` here but two code units in JavaScript, so its lengths and cuts are not modelled.
- SearchNdl.ConvertToNdlRecord: turns a title or creator that is not text into text with `String`, whereas the code passes the value itself on. What the tools' string operations would do with such a value is not modelled.
- `handleSearchBySubject` as a whole is not modelled. It reads `includeHoldings`, which it never declares (src/mcp/tools/searchBySubject.ts:67, 88, 98), so the handler as written fails on an unbound name. Its CQL builder, its comparator and its record conversion are modelled.
- SearchBooks.ExecuteIntelligentSearch: returns the engine's results as their NDL records. The code returns them with the filter's analysis fields still attached, and `ExecuteAdvancedSearch` likewise with the scorer's fields.
- SearchBooks.HandleSearchBooks: the mode's search is modelled with its connector trace, but the handler's result does not carry that trace. The intelligent engine's per-query fetch is a parameter of the world.
- `executionTime` and `totalTime` are not modelled; the stage and result records have no timing fields.
- Logging is not modelled: `console.error` and `console.warn`, and the logger middleware.
- The metrics values are integers. Non-integer and `NaN` values are not modelled, and `toString` of a value is `IntToString`, which matches JavaScript for integers.
- Counts that JavaScript would lose precision on (above 2^53) are not modelled; Dafny integers are unbounded.
- `getMetrics` is not modelled (src/middleware/metrics.ts:124-134). It only copies the three maps' values, which `Values` gives.
- The global `metrics` instance, `NDL_METRICS`, `SystemMetrics` and the `withMetrics` and `withLogging` decorators are not modelled. They touch process memory, the console and the clock.
- The `labels` argument of `recordHistogram` is not modelled, because the code never uses it.
- The HTTP and MCP servers, the command-line entry points, the environment schema, the prompt texts and the tool registry are not part of this model.

## Findings

| source | as written | input that shows it | evidently intended | confidence | as-written member | corrected member |
|---|---|---|---|---|---|---|
| src/mcp/tools/searchBooks.ts:276-322 | each keyword's quotes are escaped (line 280) before the keyword is cut to four units (line 301), so the cut can split `\"` and leave a trailing backslash | the query `abc"def`: the keyword becomes `abc\`, and the fallback CQL `title="abc\"` has its closing quote escaped | cut the keyword to four units first and escape it afterwards, so every title clause closes | not executed | SearchBooks.DanglingBackslash (on `FallbackCql`, which the tools send) | SearchBooks.CutBeforeEscapeCloses and SearchBooks.FallbackKeywordsShape (on `CorrectedFallbackCql` and `FallbackKeywords`) |
