# leitstand-template-engine core, modelled in Dafny

This project models the core of the leitstand template engine. The engine is a
service that renders configuration files from template folders. It also keeps a
ledger of asynchronous generation jobs that clients poll over REST.

The model covers six parts:

- **Expiring store** (`ttlmap.dfy`, module `TTLStore`): the class `TTLMap` over a
  `map<string, Item<V>>`. Every entry carries the Unix second of its last access.
  The store supports insert-if-absent `Put`, a refreshing `Get`, a copying `Map`
  and `Sweep(now)`. `Sweep` is one tick of the background expiry loop. `Sweep`
  and `Map` are proved against the specification functions `Unexpired` and
  `Values`; `Put` and `Get` state the new map as an update of the old one. `Get`
  checks no stamp, so an entry past its TTL stays readable until the next sweep,
  and reading it refreshes it.
- **Jobs** (`job_model.dfy`, module `JobModel`): the PENDING → DONE state
  machine, the result constructors and `NewJob`. A job's ID is the decimal form
  of a number; the number stands for what the random source produced.
- **Job ledger** (`job_repository.dfy`, module `JobRepository`): `DefaultRepository`
  over one TTL store with a five-minute TTL. It provides listing, lookup and
  adding jobs, and the `Location` URL of a job.
- **Job handlers** (`job_rest.dfy`, module `JobRest`): the status code and body
  chosen by the `jobs` and `job` REST handlers.
- **Generation pipeline** (`configen_model.dfy`, `post_processors.dfy`,
  `configen_repository.dfy`): the sentinel errors and the template descriptor
  (`TemplateConfig`), config loading, pattern rewriting and engine selection.
  It also covers the left-to-right post-processor fold and the two
  regular-expression post-processors. Each post-processor is modelled as the
  scan Go's `ReplaceAllString` performs and proved equal to a byte-level
  description of what survives.
- **Feature toggles and options** (`configen_funcs.dfy`, `options.dfy`):
  `featureIsEnabled` and `Options.Validate` with its exact error text.

The collaborators are passed in as function-typed parameters:

- the clock (`now`);
- the random job number;
- the file system (`fs`);
- the YAML decoder (`decode`);
- the template library (`render`);
- the JSON formatters (`pretty`, `ugly`);
- the semantic-version library (`parseConstraint`, `parseVersion`, `check`).

## Model

| member | source | states |
|---|---|---|
| TTLStore.TruncSeconds | pkg/job/ttlmap.go:37 | the TTL in seconds is the duration's whole seconds, truncated toward zero, for positive and negative durations |
| TTLStore.Unexpired | pkg/job/ttlmap.go:41-48 | what a sweep keeps: every unexpired entry with value and stamp unchanged, no expired entry, no new key; every kept entry has `lastAccess + ttl >= now` |
| TTLStore.Values | pkg/job/ttlmap.go:83-91 | the snapshot has exactly the store's keys, each mapped to its stored value |
| TTLStore.ReadSurvivesSweep | pkg/job/ttlmap.go:71-80 | a read resets the eviction clock: an entry read at `now` (stamp set to `now`) survives, unchanged, every sweep at a time up to `now + ttl` |
| TTLStore.ExpiredIsAbsent | pkg/job/ttlmap.go:44-46 | an entry with `lastAccess + ttl < now` is absent after the sweep |
| TTLStore.TTLMap.Len | pkg/job/ttlmap.go:54-57 | the length is the number of keys, and 0 exactly for the empty map |
| TTLStore.TTLMap.constructor | pkg/job/ttlmap.go:36-38 | a new store is empty, `Len()` is 0, and its TTL in seconds is the truncated duration |
| TTLStore.TTLMap.Put | pkg/job/ttlmap.go:60-68 | an absent key gains `(v, now)` and all other entries stay; a present key leaves the whole map unchanged (first write wins) |
| TTLStore.TTLMap.Get | pkg/job/ttlmap.go:71-80 | a hit returns the stored value and sets only that entry's stamp to `now`; a miss returns none and changes nothing |
| TTLStore.TTLMap.Map | pkg/job/ttlmap.go:83-91 | the copy equals `Values(m)`: the same keys and values, size `Len()`, no stamp changed |
| TTLStore.TTLMap.Sweep | pkg/job/ttlmap.go:41-48 | the new map is `Unexpired(old map, now, ttl)`: exactly the expired entries are deleted, so every remaining entry satisfies `lastAccess + ttl >= now` |
| JobModel.JobState.Name | pkg/job/model.go:26-33 | the two states serialise as "PENDING" and "DONE", and only Pending as "PENDING" |
| JobModel.DoneIsFinal | pkg/job/model.go:45-49 | along any run of allowed moves (stay, or PENDING to DONE), a job that is DONE stays DONE |
| JobModel.NewAsyncResult | pkg/job/model.go:65-70 | the result carries the status code and no data |
| JobModel.NewAsyncResultWithMessage | pkg/job/model.go:57-63 | the result carries the status code and a data payload holding the message |
| JobModel.AsyncResultsDistinguishable | pkg/job/model.go:57-70 | both constructors keep the status code; only `NewAsyncResultWithMessage` has data, and that data is the message; results of the two kinds never coincide |
| JobModel.DecimalString | pkg/job/model.go:75 | a job ID is a non-empty string of decimal digits without a leading zero |
| JobModel.DecimalRoundTrip | pkg/job/model.go:75 | reading the ID back yields the number it was made from, so distinct numbers give distinct IDs |
| JobModel.Job.NewJob | pkg/job/model.go:72-79 | a new job is PENDING, has the given description, no result, an empty callback URL and a decimal-digit ID |
| JobModel.Job.SetResult | pkg/job/model.go:45-49 | the result becomes `r` and the state DONE; the move is an allowed step, and DONE stays DONE |
| JobRepository.DefaultTTLIsFiveMinutes | pkg/job/repository.go:58 | the ledger's TTL of 5 minutes is 300 seconds |
| JobRepository.DefaultRepository.constructor | pkg/job/repository.go:53-63 | a new ledger has a fresh, empty store with a TTL of 300 seconds and keeps the base URL |
| JobRepository.DefaultRepository.Jobs | pkg/job/repository.go:66-73 | the listing holds exactly the stored IDs, each mapped to its stored job (whose ID is that key); no stamp changes; never an error |
| JobRepository.DefaultRepository.Job | pkg/job/repository.go:76-82 | a stored ID returns its job and refreshes only its stamp (an entry past its TTL counts as stored until a sweep removes it); an unknown or already swept ID returns null and changes nothing; never an error |
| JobRepository.DefaultRepository.AddJob | pkg/job/repository.go:85-88 | the job is stored under its ID stamped `now` unless the ID is taken, in which case the original stays; never an error |
| JobRepository.Location | pkg/job/repository.go:124 | the location is the base URL, a '/', then the ID, and nothing else |
| JobRepository.DefaultRepository.JobLocation | pkg/job/repository.go:117-119 | the ledger's location of a job is its ID below the ledger's base URL; for an ID without '/' the last path segment is the ID |
| JobRepository.LocationNamesJob | pkg/job/repository.go:121-124 | for an ID without '/', the location `baseURL + "/" + ID` starts with the base URL and its last path segment is the ID |
| JobRepository.NewJobLocation | pkg/job/repository.go:117-124 | the location of any job made by `NewJob` ends in a segment that is exactly its ID |
| JobRest.JobLookupReply | pkg/job/rest/application.go:81-95 | 500 "error in getting job" exactly on a repository error, 404 "job not found" exactly on a null job, 202 exactly for PENDING and 200 exactly for DONE, both with the job as body |
| JobRest.JobsListReply | pkg/job/rest/application.go:49-59 | on error 500 "error in getting Jobs"; otherwise 200 with a list holding each job of the map exactly once |
| JobRest.Application.constructor | pkg/job/rest/application.go:33-37 | the application keeps the given repository |
| JobRest.Application.Jobs | pkg/job/rest/application.go:48-60 | over the default ledger the answer is always 200, with one list element per stored job |
| JobRest.Application.Job | pkg/job/rest/application.go:76-96 | over the default ledger the answer is 404 "job not found" exactly when the ID is unknown or already swept and is never 500; a stored job gives 202 when PENDING and 200 when DONE with the job as body, and only its stamp is refreshed |
| ConfigenModel.SentinelsDistinct | pkg/configen/model.go:21-28 | the three sentinels are distinct with distinct texts; `errors.Is` recognises an annotated sentinel exactly by its own sentinel and never a foreign cause |
| ConfigenModel.WithMessageText | pkg/configen/repository.go:55 | an annotated sentinel's text is the message, ": ", then the sentinel's own text |
| ConfigenRepository.NewEngine | pkg/configen/repository.go:48-56 | "golang" and "" yield the Go engine; any other name fails with engine-not-found annotated by that name |
| ConfigenRepository.ResolvePatterns | pkg/configen/repository.go:103-108 | a non-empty main pattern becomes `<path>/<folder>/<pattern>`, a non-empty include pattern becomes `<path>/<pattern>`; empty patterns and every other field are unchanged |
| ConfigenRepository.ConfigFilePath | pkg/configen/repository.go:85 | the descriptor path is the template root, '/', the folder, then "/config.yaml" |
| ConfigenRepository.ParseConfigFile | pkg/configen/repository.go:84-110 | template-config-not-found (naming `<path>/<folder>/config.yaml`) exactly when that file cannot be opened; read errors and the YAML decoder's error are passed on unchanged; success exactly when the file decodes, giving the decoded config with resolved patterns |
| ConfigenRepository.EngineGenerate | pkg/configen/goengine.go:41-55 | a rendered template comes back with the config's output format; a parse failure gives no bytes and an empty format; an execution failure gives no bytes and the config's format; either failure returns the template library's own error unchanged |
| ConfigenRepository.Registry | pkg/configen/repository.go:114-120 | the registry holds exactly the four post-processors, each name bound to its own transform (`RemoveTrailingCommas`, `RemoveEmptyLines`, `pretty`, `ugly`), and none of them ever fails |
| ConfigenRepository.GenerateFile | pkg/configen/repository.go:59-83 | the loop over the post-processors returns exactly what the stage-by-stage definition `Generate` gives with the fixed registry |
| ConfigenRepository.Generate | pkg/configen/repository.go:59-83 | a successful generation passed every stage (config, engine, rendering) and returns the output format of the folder's config, unchanged |
| ConfigenRepository.StagePrecedence | pkg/configen/repository.go:59-71 | a config error ends the run with that error; then an unknown engine; then a failed rendering; only a rendered result reaches the post-processors |
| ConfigenRepository.RunPostProcessors | pkg/configen/repository.go:72-82 | the post-processor fold: a successful run used only registered names and keeps the format it was given |
| ConfigenRepository.RunInOrder | pkg/configen/repository.go:72-81 | running `a + b` is running `a`, then `b` on `a`'s output, unless `a` stopped |
| ConfigenRepository.NoPostProcessors | pkg/configen/repository.go:72-82 | with no post-processors the engine's bytes and format come back unchanged without error |
| ConfigenRepository.FailingProcessorStops | pkg/configen/repository.go:77-80 | a failing processor ends the run with its own output, the format and its error |
| ConfigenRepository.RegistryRun | pkg/configen/repository.go:72-76 | over the fixed registry a run with only known names succeeds and keeps the format; the first unknown name ends it with post-processor-not-found naming it, no bytes and an empty format |
| PostProcessors.ReplaceTrailingCommas | pkg/configen/repository.go:126 | the leftmost-first `ReplaceAllString` scan of `(\s*),(\s*[}\]])` with `$1$2`; it never lengthens its input (its full meaning is the next row) |
| PostProcessors.ScanRemovesTrailingCommas | pkg/configen/repository.go:121 | the leftmost-first replacement of `(\s*),(\s*[}\]])` by `$1$2` deletes exactly the commas whose next non-`\s` byte is `}` or `]`, and keeps every other byte in order |
| PostProcessors.RemoveTrailingCommas | pkg/configen/repository.go:125-127 | the output is the input without its trailing commas, whitespace included, and there is never an error |
| PostProcessors.TrailingCommaKeepsSpace | pkg/configen/repository.go:125-127 | the whitespace on both sides of a deleted comma is kept |
| PostProcessors.TrailingCommasSinglePass | pkg/configen/repository.go:126 | a single pass: `,,]` becomes `,]`, because a comma made trailing by a deletion is not deleted |
| PostProcessors.ReplaceEmptyLines | pkg/configen/repository.go:130 | the leftmost-first `ReplaceAllString` scan of `\n(( )*\n)+` with `\n`; it never lengthens its input (its full meaning is the next two rows) |
| PostProcessors.ScanRemovesEmptyLines | pkg/configen/repository.go:122 | the leftmost-first replacement of `\n(( )*\n)+` by `\n` deletes exactly the bytes lying on space-only lines, and keeps every other byte in order |
| PostProcessors.ScanLeavesNoEmptyLine | pkg/configen/repository.go:122 | after the replacement no newline is followed by only spaces and another newline |
| PostProcessors.RemoveEmptyLines | pkg/configen/repository.go:129-131 | the output is the input without its empty-line bytes, contains no empty line, and there is never an error |
| PostProcessors.EmptyLinesCollapse | pkg/configen/repository.go:129-131 | a newline, a blank line and an empty line collapse to a single newline |
| ConfigenFuncs.FeatureIsEnabled | pkg/configen/funcs.go:25-57 | nil or "" gives (false, no error); a non-string gives (false, "invalid feature toggle constraint type: " + its type); a bad constraint or version gives (false, its parse error); otherwise (check, no error); every error comes with false |
| ConfigenFuncs.VersionIgnoredWithoutConstraint | pkg/configen/funcs.go:28-41 | with a nil or empty constraint the version is never examined: every version gives (false, no error) |
| Options.Validate | pkg/options/options.go:37-52 | no error exactly when both settings are non-empty; otherwise the error wraps `ErrInvalidConfiguration` and its text is "invalid configuration\ndetail:\n" followed by the missing settings, address first, joined by "\n  " |

## Left out

- Concurrency of the store: the `sync.RWMutex`, the `time.Tick` goroutine and the stamp write under a read lock in `Get`. The sweep is an explicit call `Sweep(now)`.
- TTLStore.TTLMap.Sweep: requires a period `maxTTL / 10` of at least one nanosecond, because otherwise Go creates no ticker and nothing is ever swept.
- The capacity hint of `NewTTLMap`, which has no observable effect.
- TTLStore.TruncSeconds: uses exact integer division where Go converts through a float64 number of seconds. The two agree for every duration a ledger uses.
- The 64-bit width of the stamps: `lastAccess + ttl` is unbounded here, so overflow near the int64 limit is not modelled.
- JobModel.Job.NewJob: the random number is a parameter; `rand.Int()` itself is not modelled.
- JobModel.Job: the ID, description and callback URL are constants because nothing in the core assigns them after creation. Go's `JobState` is a string type, but only its two named values are modelled.
- JobModel.Job.SetResult: takes a result value. A nil `*Result` argument is not modelled.
- `MakeCallbackToURI` and the generation goroutine: HTTP PUT callbacks with retries over a network client.
- The writes to the `http.ResponseWriter` (headers, JSON encoding) in `WriteJobResult` and the handlers. Only the `Location` value, the status code and the body are modelled.
- The path validation `validateAndGetIDFromPath` of the `job` handler, which sits in a file outside this model.
- JobRest.Application.Jobs: the order of the list is Go's map iteration order, which is unspecified. It is a ghost witness here.
- Template execution (text/template with sprig, `ParseGlob`) is the parameter `render`. Its failure is either a parse failure or an execution failure.
- File reading and YAML decoding in `parseConfigFile` are the parameters `fs` and `decode`. Logging is not modelled.
- `prettyJSON` and `uglyJSON` wrap tidwall/pretty and are the parameters `pretty` and `ugly`.
- Semantic-version parsing and range checking (Masterminds/semver) are the parameters `parseConstraint`, `parseVersion` and `check`.
- ConfigenFuncs.FeatureIsEnabled: requires a string version wherever the version is examined, because Go's type assertion panics otherwise.
- JSON numbers among the template variables are integers here (Go decodes them as float64). Only their type name is used.
- ConfigenFuncs.FeatureIsEnabled: the constraint and the version range over decoded JSON values only. A template can pass any Go value (the literal `2` is an `int`, so Go's message would end in "int"); such values are not modelled.
- ConfigenRepository.GenerateFile: uses the three-result signature of `GenerateFile`. The callers that bind two results are outside this model.
- Error texts of collaborators (file system, YAML, template library) are carried through as opaque strings.
