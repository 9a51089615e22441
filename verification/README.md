# Caching executed-file analyser

A Dafny model of the caching decorator that php-code-coverage puts in front of
its executed-file analyser. The analyser extracts classes, traits, functions,
lines-of-code counts and ignored lines from a PHP source file. The decorator
keeps one cache file per (source file, operation) pair in a cache directory.
An entry is reused while the source file has not been modified after the
cache file was written. Otherwise the decorator delegates to the wrapped
analyser, writes the result and returns it.

The file system becomes an immutable record, `CachingAnalyser.Cache`, with
these parts:

- the cache directory;
- the class name that prefixes every `__METHOD__` value;
- a map from cache paths to entries (the stored value and the cache file's modification time);
- a map from source file names to their modification times;
- the clock a write stamps onto a cache file.

The wrapped analyser is a function value that returns a value or an
`AnalysisError`. Each wrapper call returns a `Step`: what it returns or throws,
the cache afterwards, and whether the analyser was invoked.

Modules:

- `wrappers.dfy` (`Wrappers`): `Option` and `Result`.
- `cache_key.dfy` (`CacheKey`): the `__METHOD__` values, the cache file name
  and the proof that the five wrappers never share a cache file.
- `caching_analyser.dfy` (`CachingAnalyser`):
  - `cacheHas`, `cacheRead` and `cacheWrite`;
  - the wrapper template `CachedCall` and the five wrappers;
  - `Serves`, the contract each wrapper keeps, stated independently of the code.
- `cache_properties.dfy` (`CacheProperties`): the hit and miss rules and the
  single-call properties. These are hit stability, invalidation on change,
  the edit cycle with a moving clock,
  failure isolation and key independence.
- `replay.dfy` (`Replay`): a run of many wrapper calls against one cache.
  - `Run` is the reference definition of the run.
  - `ServeAll` serves the requests in a loop.
  - The run properties: equal requests get equal results, and in a settled
    run each distinct request reaches the analyser at most once.

Behaviour modelled as the code has it:

- **A missing source file makes an existing cache file a hit.** `filemtime`
  on a file it cannot stat returns `false`. PHP then compares the cache
  file's time with `false` as booleans, and nothing is less than `false`.
  So `cacheHas` returns true whenever the cache file exists
  (`UnreadableSourceIsHit`). A deleted source file therefore keeps being
  served from its existing cache file.
- **Equal times are fresh.** A source rewritten in the same second as the
  cache write is served stale (`NotOlderEntryIsHit`).
- **The key uses the fully qualified `__METHOD__`.** It hashes
  `ClassName::classesIn`, not the bare method name. The hash input is the
  file name and the method identifier joined with no separator. That
  concatenation is not injective for arbitrary strings
  (`ConcatenationCanCollide`). For the five identifiers the class actually
  uses it is injective, because none of them is a suffix of another
  (`KeyInjective`).
- **An analyser failure writes nothing.** The write at lines 77, 90, 103,
  116 and 129 is reached only after the delegate returns, so a failure
  leaves every cache file as it was (`FailureIsolation`).

## Model

| member | source | states |
|---|---|---|
| CacheKey.CacheFile | src/StaticAnalysis/CachingExecutedFileAnalyser.php:134-137 | The cache file of a (file, method) pair lies in the configured cache directory. |
| CacheKey.PreimageSplits | src/StaticAnalysis/CachingExecutedFileAnalyser.php:136 | The digest is taken over the file name immediately followed by the method identifier. Both can be read back from the pre-image given the file name's length. |
| CacheKey.SameFileDistinctMethods | src/StaticAnalysis/CachingExecutedFileAnalyser.php:136 | For one source file, different method identifiers give different cache files. |
| CacheKey.SameMethodDistinctFiles | src/StaticAnalysis/CachingExecutedFileAnalyser.php:136 | For one method identifier, different source files give different cache files. |
| CacheKey.ConcatenationCanCollide | src/StaticAnalysis/CachingExecutedFileAnalyser.php:136 | Concatenation without a separator is not injective in general. The different pairs ("/src/A", "B.php::m") and ("/src/AB", ".php::m") share one cache file. |
| CacheKey.MethodIdsNotSuffixes | src/StaticAnalysis/CachingExecutedFileAnalyser.php:69-132 | No wrapper's `__METHOD__` value is a suffix of another wrapper's, whatever the class name. |
| CacheKey.ClassKeysInjective | src/StaticAnalysis/CachingExecutedFileAnalyser.php:134-137 | With the analyser class's own name in `__METHOD__`, calls for different files or operations never share a cache file. |
| CacheKey.KeyInjective | src/StaticAnalysis/CachingExecutedFileAnalyser.php:134-137 | Two wrapper calls share a cache file if and only if they have the same file name and the same operation. |
| CachingAnalyser.CacheHas | src/StaticAnalysis/CachingExecutedFileAnalyser.php:139-152 | No cache file means no hit. An existing cache file is a hit exactly when the source's modification time is not after the cache file's, and always when the source's time cannot be read. |
| CachingAnalyser.CacheRead | src/StaticAnalysis/CachingExecutedFileAnalyser.php:159-175 | Reading yields a value exactly when the cache file exists, and then it is the value stored in that file. |
| CachingAnalyser.CacheWrite | src/StaticAnalysis/CachingExecutedFileAnalyser.php:180-186 | Reading the same cache file after the write yields the data written. The directory, the source-file times and the clock are unchanged. |
| CachingAnalyser.CacheWriteFrame | src/StaticAnalysis/CachingExecutedFileAnalyser.php:180-186 | The write creates or overwrites exactly one cache file and stamps it with the clock. Every other cache file keeps its value and time. |
| CachingAnalyser.CachedCall | src/StaticAnalysis/CachingExecutedFileAnalyser.php:69-80 | A call with a usable entry returns the stored value without invoking the analyser or changing the cache. Otherwise it returns the analyser's outcome verbatim. A success is stored at the call's cache file stamped with the clock, and nothing else changes. A failure leaves the cache as it was. |
| CachingAnalyser.ClassesIn | src/StaticAnalysis/CachingExecutedFileAnalyser.php:69-80 | `classesIn` keeps the wrapper contract for the classes operation's cache file. |
| CachingAnalyser.TraitsIn | src/StaticAnalysis/CachingExecutedFileAnalyser.php:82-93 | `traitsIn` keeps the wrapper contract for the traits operation's cache file. |
| CachingAnalyser.FunctionsIn | src/StaticAnalysis/CachingExecutedFileAnalyser.php:95-106 | `functionsIn` keeps the wrapper contract for the functions operation's cache file. |
| CachingAnalyser.LinesOfCodeFor | src/StaticAnalysis/CachingExecutedFileAnalyser.php:108-119 | `linesOfCodeFor` keeps the wrapper contract for the lines-of-code operation's cache file. |
| CachingAnalyser.IgnoredLinesFor | src/StaticAnalysis/CachingExecutedFileAnalyser.php:121-132 | `ignoredLinesFor` keeps the wrapper contract for the ignored-lines operation's cache file. |
| CacheProperties.CacheHasMatchesValid | src/StaticAnalysis/CachingExecutedFileAnalyser.php:139-152 | For a wrapper's own method identifier, `cacheHas` is true exactly when the entry exists and the source file is not newer than it, or the source's time cannot be read. |
| CacheProperties.NoEntryIsMiss | src/StaticAnalysis/CachingExecutedFileAnalyser.php:141-145 | Without a cache file there is no hit. |
| CacheProperties.OlderEntryIsMiss | src/StaticAnalysis/CachingExecutedFileAnalyser.php:147-149 | A cache file written strictly before the source's modification time is no hit. |
| CacheProperties.NotOlderEntryIsHit | src/StaticAnalysis/CachingExecutedFileAnalyser.php:147-151 | A cache file written at or after the source's modification time is a hit, equal times included. |
| CacheProperties.UnreadableSourceIsHit | src/StaticAnalysis/CachingExecutedFileAnalyser.php:147-151 | When the source's time cannot be read, any existing cache file is a hit. |
| CacheProperties.WriteThenRead | src/StaticAnalysis/CachingExecutedFileAnalyser.php:139-186 | Reading after a write returns the data written. The entry is a hit exactly when the source is not newer than the clock. |
| CacheProperties.HitStability | src/StaticAnalysis/CachingExecutedFileAnalyser.php:69-80 | Once a call for a settled file has returned a value, an immediate repeat is a hit. It returns the same value, changes nothing and does not invoke the analyser, whatever that would now answer. |
| CacheProperties.InvalidationOnChange | src/StaticAnalysis/CachingExecutedFileAnalyser.php:69-80 | After a source is rewritten with a time later than the clock, the next call invokes the analyser again and returns its new outcome. A success overwrites the entry. |
| CacheProperties.EditCycle | src/StaticAnalysis/CachingExecutedFileAnalyser.php:69-80 | After a source edit at time `t` and a clock that has reached at least `t`, the next call invokes the analyser and returns its new outcome. If that is a value, an immediate repeat is a hit returning it, with no further analyser call and no change to the cache. |
| CacheProperties.FailureIsolation | src/StaticAnalysis/CachingExecutedFileAnalyser.php:75-77 | When the analyser fails, the cache is left exactly as it was. The caller sees the failure exactly when there was no usable entry, and it is the analyser's failure unchanged. |
| CacheProperties.KeysIndependent | src/StaticAnalysis/CachingExecutedFileAnalyser.php:180-186 | A call for one file and operation leaves the entry of every other (file, operation) pair, and whether it is a hit, as it was. |
| CacheProperties.FutureSourceTimeAlwaysMisses | src/StaticAnalysis/CachingExecutedFileAnalyser.php:147-149 | A source file modified after the clock never gets a usable entry: every call for it invokes the analyser. |
| Replay.Run | src/StaticAnalysis/CachingExecutedFileAnalyser.php:69-132 | A run of wrapper calls has one result per request and at most one delegation per request. It never moves the clock, a source time, the directory or the class name. |
| Replay.SuccessfulCallHolds | src/StaticAnalysis/CachingExecutedFileAnalyser.php:75-79 | A call that returns a value for a settled file leaves a usable entry holding that value. |
| Replay.CallKeepsHeldEntry | src/StaticAnalysis/CachingExecutedFileAnalyser.php:180-186 | Any later call, for any file and operation, keeps a usable entry usable and its value unchanged. |
| Replay.RunMemoizes | src/StaticAnalysis/CachingExecutedFileAnalyser.php:71-73 | Once a request in a run has returned a value for a settled file, every later equal request is a hit with the same value, whatever came in between. |
| Replay.CallKeepsDetermined | src/StaticAnalysis/CachingExecutedFileAnalyser.php:69-80 | If a request would now return `v`, from its entry or from the analyser, it still would after any call. |
| Replay.RepeatedRequestsAgree | src/StaticAnalysis/CachingExecutedFileAnalyser.php:69-80 | In any run, a later equal request returns what the earlier one returned. This holds for hits and misses, values and failures, settled and unsettled files. |
| Replay.DelegatesOnlyNewRequests | src/StaticAnalysis/CachingExecutedFileAnalyser.php:71-75 | For a settled file and a succeeding analyser, a request reaches the analyser only if no earlier request in the run was equal to it. |
| Replay.EqualRequestsEqualResults | src/StaticAnalysis/CachingExecutedFileAnalyser.php:69-132 | The results of a run agree on all equal requests. |
| Replay.DelegationsBound | src/StaticAnalysis/CachingExecutedFileAnalyser.php:71-77 | In a settled run, the delegations among the first `k` requests are at most the distinct requests among them. |
| Replay.SettledRunBound | src/StaticAnalysis/CachingExecutedFileAnalyser.php:71-77 | A settled run reaches the analyser at most once per distinct request. |
| Replay.ServeAll | src/StaticAnalysis/CachingExecutedFileAnalyser.php:69-132 | Serving requests one after another produces the reference run's results, final cache and delegation count. Equal requests get equal results. In a settled run there are no more delegations than distinct requests. |

A *settled* file is one whose source modification time is not after the
clock, or cannot be read. A *settled run* is one in which every requested
file is settled and the analyser succeeds on every request.

## Left out

- File I/O (`file_exists`, `filemtime`, `file_get_contents`, `file_put_contents`) is modelled as maps in the `Cache` record. Their failure modes are not modelled: a write that fails, a cache file that disappears between `cacheHas` and `cacheRead`, and the warning `filemtime` emits.
- SHA-256 is an uninterpreted injective function, the `Sha256` constructor over the pre-image. The hexadecimal rendering and `DIRECTORY_SEPARATOR` become the structured `CachePath(directory, digest)`.
- `serialize`, `unserialize` and the `allowed_classes` restriction are left out, because they are PHP built-ins. A cache file holds the value itself, so a corrupt or foreign cache file cannot occur. The `$options` array at lines 161-165 is never used. Line 172 passes `$allowedClasses` directly, and its default `[]` forbids all classes.
- The five result shapes (class, trait and function maps, the `LinesOfCode` object and the ignored-line list) are one type parameter `V`.
- Any analyser exception is one `AnalysisError`.
- The singleton `createInstance`/`getInstance`, the constructor and `Directory::create` (lines 43-67) are process wiring and not modelled. `ParsingExecutedFileAnalyser` is not part of this model.
- The class name is a field of `Cache` rather than a constant. The real class uses `CacheKey.ClassName`, every key property is proved for any class name, and `CacheKey.ClassKeysInjective` states key independence for the real one.
- Replay.Run: the clock and the source times stay fixed for the whole run, while in the program every `file_put_contents` stamps the wall-clock time of its own write. A run therefore cannot contain a source edit or a clock step. The edit cycle with a moving clock is stated call by call by `CacheProperties.EditCycle`, using `Touch` for an edit and `Tick` for passing time.
- CacheProperties.InvalidationOnChange: it keeps the clock before the edit, so the rewritten entry stays stale. What happens once the clock has caught up is stated by `CacheProperties.EditCycle`.
- Concurrent processes sharing a cache directory are left out; the code does not coordinate them.
- CacheKey.CacheFile: its contract states only where the cache file lies. The content of the digest's pre-image is stated by `CacheKey.PreimageSplits`.
