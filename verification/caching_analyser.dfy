/** The caching decorator in front of an executed-file analyser. The file system
    is an abstract store: the cache directory maps cache paths to entries (the
    stored result and the cache file's modification time), the analysed source
    files map to their modification times, and `now` is the clock a write stamps
    onto the cache file. The wrapped analyser is a function that may fail. */
module CachingAnalyser {
  import opened Wrappers
  import opened CacheKey

  /** An exception raised by the wrapped analyser; it reaches the caller unchanged. */
  datatype AnalysisError = AnalysisError(reason: string)

  /** The wrapped analyser: for an operation and a file name it computes a result
      or fails. One value type `V` stands for the five result shapes. */
  type Analyser<V> = (Op, string) -> Result<V, AnalysisError>

  /** One cache file: the value it holds and its last-write time. */
  datatype Entry<V> = Entry(value: V, writtenAt: int)

  /** The state the decorator observes and changes. `className` is the prefix of
      the `__METHOD__` values that name the operations (`ClassName` for the
      class itself). A file name missing from `sourceMtime` is a source file
      whose modification time cannot be read. */
  datatype Cache<V> = Cache(
    directory: string,
    className: string,
    files: map<CachePath, Entry<V>>,
    sourceMtime: map<string, int>,
    now: int)

  /** The result of one wrapper call: what it returns or throws, the cache
      afterwards, and whether the wrapped analyser was invoked. */
  datatype Step<V> = Step(result: Result<V, AnalysisError>, cache: Cache<V>, delegated: bool)

  /** The cache file of `filename` for operation `op` in this cache's directory. */
  function PathOf<V>(c: Cache<V>, filename: string, op: Op): CachePath
  {
    Key(c.directory, c.className, filename, op)
  }

  /** The entry stored for `filename` and `op`, if any. */
  function Lookup<V>(c: Cache<V>, filename: string, op: Op): Option<Entry<V>>
  {
    var p := PathOf(c, filename, op);
    if p in c.files then Some(c.files[p]) else None
  }

  /** The hit condition in map terms: the cache file exists, and the source file
      has not been modified after it was written (or its time cannot be read). */
  predicate Valid<V>(c: Cache<V>, filename: string, op: Op)
  {
    var p := PathOf(c, filename, op);
    p in c.files && (filename in c.sourceMtime ==> c.sourceMtime[filename] <= c.files[p].writtenAt)
  }

  /** `$a < $b` where `$b` may be `false` (the result of `filemtime` on a file it
      cannot stat): PHP then compares both sides as booleans, and nothing is
      less than `false`. */
  predicate OlderThan(writtenAt: int, sourceTime: Option<int>)
  {
    match sourceTime
    case None => false
    case Some(t) => writtenAt < t
  }

  /** `filemtime($filename)`: `None` stands for PHP's `false`. */
  function SourceTime<V>(c: Cache<V>, filename: string): Option<int>
  {
    if filename in c.sourceMtime then Some(c.sourceMtime[filename]) else None
  }

  /** `cacheHas`: no cache file means no hit; a cache file written strictly before
      the source file's modification time means no hit; otherwise a hit. A source
      file whose time cannot be read never makes an existing cache file stale. */
  function CacheHas<V>(c: Cache<V>, filename: string, methodId: string): (hit: bool)
    ensures CacheFile(c.directory, filename, methodId) !in c.files ==> !hit
    ensures CacheFile(c.directory, filename, methodId) in c.files && filename !in c.sourceMtime ==> hit
    ensures CacheFile(c.directory, filename, methodId) in c.files && filename in c.sourceMtime ==>
              (hit <==> c.sourceMtime[filename] <= c.files[CacheFile(c.directory, filename, methodId)].writtenAt)
  {
    var cacheFile := CacheFile(c.directory, filename, methodId);
    if cacheFile !in c.files then false
    else if OlderThan(c.files[cacheFile].writtenAt, SourceTime(c, filename)) then false
    else true
  }

  /** `cacheRead`: the contents of the cache file, decoded; absent when there is
      no such file. */
  function CacheRead<V>(c: Cache<V>, filename: string, methodId: string): (r: Option<V>)
    ensures r.Some? <==> CacheFile(c.directory, filename, methodId) in c.files
    ensures r.Some? ==> r.value == c.files[CacheFile(c.directory, filename, methodId)].value
  {
    var cacheFile := CacheFile(c.directory, filename, methodId);
    if cacheFile in c.files then Some(c.files[cacheFile].value) else None
  }

  /** `cacheWrite`: replaces the cache file with `data`, stamped with the current
      time; the source files and the clock are untouched. What happens to the
      other cache files is stated by `CacheWriteFrame`. */
  function CacheWrite<V>(c: Cache<V>, filename: string, methodId: string, data: V): (r: Cache<V>)
    ensures CacheRead(r, filename, methodId) == Some(data)
    ensures r.directory == c.directory && r.className == c.className
    ensures r.sourceMtime == c.sourceMtime && r.now == c.now
  {
    c.(files := c.files[CacheFile(c.directory, filename, methodId) := Entry(data, c.now)])
  }

  /** `cacheWrite` creates or overwrites exactly one cache file, stamps it with
      the clock, and leaves every other cache file as it was. */
  lemma CacheWriteFrame<V>(c: Cache<V>, filename: string, methodId: string, data: V)
    ensures var p := CacheFile(c.directory, filename, methodId);
            var r := CacheWrite(c, filename, methodId, data);
            && r.files.Keys == c.files.Keys + {p}
            && r.files[p] == Entry(data, c.now)
            && (forall q :: q in c.files && q != p ==> r.files[q] == c.files[q])
  {
  }

  /** The contract every wrapper keeps, stated apart from the code. On a hit the
      stored value comes back, the analyser is not invoked and nothing changes.
      On a miss the analyser's outcome comes back verbatim; a success is stored at
      the call's cache file stamped `now` and no other cache file changes, a
      failure leaves the cache as it was. No source time and not the clock
      change. */
  ghost predicate Serves<V>(c: Cache<V>, filename: string, op: Op, analyse: Analyser<V>, s: Step<V>)
  {
    var p := PathOf(c, filename, op);
    && s.cache.directory == c.directory
    && s.cache.className == c.className
    && s.cache.sourceMtime == c.sourceMtime
    && s.cache.now == c.now
    && (if Valid(c, filename, op) then
          && !s.delegated
          && s.cache == c
          && s.result == Success(c.files[p].value)
        else
          && s.delegated
          && s.result == analyse(op, filename)
          && (s.result.Failure? ==> s.cache == c)
          && (s.result.Success? ==> s.cache.files == c.files[p := Entry(s.result.value, c.now)]))
  }

  /** The template shared by the five wrappers, for the wrapper whose `__METHOD__`
      is `MethodId(c.className, op)`: check the cache, return the stored value on a hit,
      otherwise delegate, write the result and return it. An analyser failure
      propagates before the write is reached. */
  function CachedCall<V>(c: Cache<V>, filename: string, op: Op, analyse: Analyser<V>): (s: Step<V>)
    ensures Serves(c, filename, op, analyse, s)
  {
    var methodId := MethodId(c.className, op);
    if CacheHas(c, filename, methodId) then
      Step(Success(CacheRead(c, filename, methodId).value), c, false)
    else
      var data := analyse(op, filename);
      match data
      case Failure(_) => Step(data, c, true)
      case Success(v) => Step(data, CacheWrite(c, filename, methodId, v), true)
  }

  /** `classesIn`. */
  function ClassesIn<V>(c: Cache<V>, filename: string, analyse: Analyser<V>): (s: Step<V>)
    ensures Serves(c, filename, Classes, analyse, s)
  {
    CachedCall(c, filename, Classes, analyse)
  }

  /** `traitsIn`. */
  function TraitsIn<V>(c: Cache<V>, filename: string, analyse: Analyser<V>): (s: Step<V>)
    ensures Serves(c, filename, Traits, analyse, s)
  {
    CachedCall(c, filename, Traits, analyse)
  }

  /** `functionsIn`. */
  function FunctionsIn<V>(c: Cache<V>, filename: string, analyse: Analyser<V>): (s: Step<V>)
    ensures Serves(c, filename, Functions, analyse, s)
  {
    CachedCall(c, filename, Functions, analyse)
  }

  /** `linesOfCodeFor`. */
  function LinesOfCodeFor<V>(c: Cache<V>, filename: string, analyse: Analyser<V>): (s: Step<V>)
    ensures Serves(c, filename, LinesOfCode, analyse, s)
  {
    CachedCall(c, filename, LinesOfCode, analyse)
  }

  /** `ignoredLinesFor`. */
  function IgnoredLinesFor<V>(c: Cache<V>, filename: string, analyse: Analyser<V>): (s: Step<V>)
    ensures Serves(c, filename, IgnoredLines, analyse, s)
  {
    CachedCall(c, filename, IgnoredLines, analyse)
  }

  /** The source file is rewritten: its modification time becomes `t`. */
  function Touch<V>(c: Cache<V>, filename: string, t: int): (r: Cache<V>)
    ensures SourceTime(r, filename) == Some(t)
    ensures forall f :: f != filename ==> SourceTime(r, f) == SourceTime(c, f)
    ensures r.files == c.files && r.now == c.now && r.directory == c.directory && r.className == c.className
  {
    c.(sourceMtime := c.sourceMtime[filename := t])
  }

  /** Time passes: the clock that the next write stamps onto a cache file
      becomes `t`. */
  function Tick<V>(c: Cache<V>, t: int): (r: Cache<V>)
    ensures r.now == t
    ensures r.files == c.files && r.sourceMtime == c.sourceMtime
    ensures r.directory == c.directory && r.className == c.className
  {
    c.(now := t)
  }
}
