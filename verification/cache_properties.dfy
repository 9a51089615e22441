/** Properties of a single wrapper call: when `cacheHas` reports a hit, what a hit
    and a miss do to the cache, and how calls for different keys stay apart. */
module CacheProperties {
  import opened Wrappers
  import opened CacheKey
  import opened CachingAnalyser

  /** `cacheHas` for a wrapper's own method identifier agrees with the reference
      definition of a usable entry, in both directions. */
  lemma CacheHasMatchesValid<V>(c: Cache<V>, filename: string, op: Op)
    ensures CacheHas(c, filename, MethodId(c.className, op)) <==> Valid(c, filename, op)
  {
  }

  /** Without a cache file there is no hit. */
  lemma NoEntryIsMiss<V>(c: Cache<V>, filename: string, methodId: string)
    requires CacheFile(c.directory, filename, methodId) !in c.files
    ensures !CacheHas(c, filename, methodId)
  {
  }

  /** A cache file written strictly before the source file's modification time is
      no hit. */
  lemma OlderEntryIsMiss<V>(c: Cache<V>, filename: string, methodId: string)
    requires CacheFile(c.directory, filename, methodId) in c.files
    requires filename in c.sourceMtime
    requires c.files[CacheFile(c.directory, filename, methodId)].writtenAt < c.sourceMtime[filename]
    ensures !CacheHas(c, filename, methodId)
  {
  }

  /** A cache file written at or after the source file's modification time is a
      hit; equal times count as fresh, so a source rewritten within the same
      second as the cache write is served stale. */
  lemma NotOlderEntryIsHit<V>(c: Cache<V>, filename: string, methodId: string)
    requires CacheFile(c.directory, filename, methodId) in c.files
    requires filename in c.sourceMtime
    requires c.files[CacheFile(c.directory, filename, methodId)].writtenAt >= c.sourceMtime[filename]
    ensures CacheHas(c, filename, methodId)
  {
  }

  /** When the source file's modification time cannot be read, any existing cache
      file is a hit: PHP compares the cache file's time with `false` as booleans. */
  lemma UnreadableSourceIsHit<V>(c: Cache<V>, filename: string, methodId: string)
    requires CacheFile(c.directory, filename, methodId) in c.files
    requires filename !in c.sourceMtime
    ensures CacheHas(c, filename, methodId)
  {
  }

  /** Source file `filename` was last modified no later than the clock, or its
      time cannot be read. */
  predicate SettledAt<V>(c: Cache<V>, filename: string)
  {
    filename in c.sourceMtime ==> c.sourceMtime[filename] <= c.now
  }

  /** Writing then reading a cache file returns what was written, and the entry
      is a hit as long as the source file is not newer than the clock. */
  lemma WriteThenRead<V>(c: Cache<V>, filename: string, methodId: string, data: V)
    ensures CacheRead(CacheWrite(c, filename, methodId, data), filename, methodId) == Some(data)
    ensures CacheHas(CacheWrite(c, filename, methodId, data), filename, methodId) <==> SettledAt(c, filename)
  {
  }

  /** Hit stability: once a call has returned a value, an immediate second call
      for the same file and operation is a hit that returns the same value without
      consulting the analyser (whatever it would answer now) and changes nothing. */
  lemma HitStability<V>(c: Cache<V>, filename: string, op: Op, first: Analyser<V>, second: Analyser<V>)
    requires SettledAt(c, filename)
    requires CachedCall(c, filename, op, first).result.Success?
    ensures var s1 := CachedCall(c, filename, op, first);
            var s2 := CachedCall(s1.cache, filename, op, second);
            !s2.delegated && s2.result == s1.result && s2.cache == s1.cache
  {
  }

  /** Invalidation on change: after a call has cached a value, rewriting the
      source file with a modification time later than the clock makes the next
      call delegate again, return the analyser's new outcome and, when it
      succeeds, overwrite the entry. */
  lemma InvalidationOnChange<V>(c: Cache<V>, filename: string, op: Op, first: Analyser<V>, second: Analyser<V>, t: int)
    requires CachedCall(c, filename, op, first).result.Success?
    requires Valid(c, filename, op) ==> c.files[PathOf(c, filename, op)].writtenAt < t
    requires c.now < t
    ensures var s1 := CachedCall(c, filename, op, first);
            var s2 := CachedCall(Touch(s1.cache, filename, t), filename, op, second);
            && s2.delegated
            && s2.result == second(op, filename)
            && (s2.result.Success? ==> Lookup(s2.cache, filename, op) == Some(Entry(s2.result.value, c.now)))
  {
  }

  /** The whole edit cycle with a clock that moves on: after a call, the source
      file is rewritten at time `t` and the clock reaches `later >= t`. The next
      call invokes the analyser and returns its new outcome; when that is a
      value, an immediate repeat is a hit that returns it without invoking the
      analyser again. */
  lemma EditCycle<V>(c: Cache<V>, filename: string, op: Op, first: Analyser<V>, second: Analyser<V>, third: Analyser<V>, t: int, later: int)
    requires Lookup(c, filename, op).Some? ==> Lookup(c, filename, op).value.writtenAt < t
    requires c.now < t <= later
    ensures var s1 := CachedCall(c, filename, op, first);
            var s2 := CachedCall(Tick(Touch(s1.cache, filename, t), later), filename, op, second);
            var s3 := CachedCall(s2.cache, filename, op, third);
            && s2.delegated
            && s2.result == second(op, filename)
            && (s2.result.Success? ==> !s3.delegated && s3.result == s2.result && s3.cache == s2.cache)
  {
  }

  /** Failure isolation: when the analyser fails, the cache is left exactly as it
      was, and on a miss the failure reaches the caller unchanged. */
  lemma FailureIsolation<V>(c: Cache<V>, filename: string, op: Op, analyse: Analyser<V>)
    requires analyse(op, filename).Failure?
    ensures var s := CachedCall(c, filename, op, analyse);
            && s.cache == c
            && (s.result.Failure? <==> !Valid(c, filename, op))
            && (s.result.Failure? ==> s.result == analyse(op, filename))
  {
  }

  /** Key independence: a call for one file and operation leaves the entry of
      every other file and operation, and whether that entry is a hit, as it was.
      This is what keeps the five wrappers apart for the same file. */
  lemma KeysIndependent<V>(c: Cache<V>, f1: string, o1: Op, f2: string, o2: Op, analyse: Analyser<V>)
    requires f1 != f2 || o1 != o2
    ensures var s := CachedCall(c, f1, o1, analyse);
            && Lookup(s.cache, f2, o2) == Lookup(c, f2, o2)
            && (Valid(s.cache, f2, o2) <==> Valid(c, f2, o2))
  {
    KeyInjective(c.directory, c.className, f1, o1, f2, o2);
  }

  /** A source file modified after the clock never gets a usable entry: the write
      stamps the cache file with the clock, which is still older, so every call
      for it delegates. */
  lemma FutureSourceTimeAlwaysMisses<V>(c: Cache<V>, filename: string, op: Op, analyse: Analyser<V>)
    requires filename in c.sourceMtime && c.now < c.sourceMtime[filename]
    requires !Valid(c, filename, op)
    ensures var s := CachedCall(c, filename, op, analyse);
            s.delegated && !Valid(s.cache, filename, op)
  {
  }
}
