/** Cache key derivation: the name of the file that holds one operation's result
    for one analysed source file is the SHA-256 digest of the file name followed
    by the operation's method identifier, inside the cache directory. */
module CacheKey {

  /** The five analysis operations the caching analyser wraps. */
  datatype Op = Classes | Traits | Functions | LinesOfCode | IgnoredLines

  /** Fully qualified name of the caching analyser class, the prefix of every
      `__METHOD__` value it uses. */
  const ClassName: string := "SebastianBergmann\\CodeCoverage\\StaticAnalysis\\CachingExecutedFileAnalyser"

  /** Name of the public method that implements each operation. */
  function MethodName(op: Op): string
  {
    match op
    case Classes => "classesIn"
    case Traits => "traitsIn"
    case Functions => "functionsIn"
    case LinesOfCode => "linesOfCodeFor"
    case IgnoredLines => "ignoredLinesFor"
  }

  /** The value of PHP's `__METHOD__` inside each wrapper of class `className`:
      the class name, `::` and the method name. */
  function MethodId(className: string, op: Op): string
  {
    className + "::" + MethodName(op)
  }

  /** A SHA-256 digest. The hash itself is not modelled: a digest is identified
      with its pre-image, which makes the hash an opaque injective function
      (the collision resistance the cache relies on). */
  datatype Digest = Sha256(preimage: string)

  /** A path inside the cache directory: the directory, the platform's directory
      separator and the hexadecimal digest, kept apart structurally. */
  datatype CachePath = CachePath(directory: string, name: Digest)

  /** The cache file for `filename` and `methodId`: the hash is taken over the plain
      concatenation of the two strings, with no separator between them. */
  function CacheFile(directory: string, filename: string, methodId: string): (p: CachePath)
    ensures p.directory == directory
  {
    CachePath(directory, Sha256(filename + methodId))
  }

  /** The file name and the method identifier can be read back from the digest's
      pre-image once the length of the file name is known. */
  lemma PreimageSplits(directory: string, filename: string, methodId: string)
    ensures var pre := CacheFile(directory, filename, methodId).name.preimage;
            |pre| == |filename| + |methodId| && pre[..|filename|] == filename && pre[|filename|..] == methodId
  {
  }

  /** The cache file one of the five wrappers of class `className` uses for
      `filename`. */
  function Key(directory: string, className: string, filename: string, op: Op): CachePath
  {
    CacheFile(directory, filename, MethodId(className, op))
  }

  /** `a` is a suffix of `b`. */
  predicate IsSuffix(a: string, b: string)
  {
    |a| <= |b| && b[|b| - |a|..] == a
  }

  /** With the same file name, different methods give different cache files:
      the file name is a common prefix of both pre-images. */
  lemma SameFileDistinctMethods(directory: string, filename: string, m1: string, m2: string)
    requires m1 != m2
    ensures CacheFile(directory, filename, m1) != CacheFile(directory, filename, m2)
  {
    PreimageSplits(directory, filename, m1);
    PreimageSplits(directory, filename, m2);
  }

  /** With the same method, different file names give different cache files:
      the method is a common suffix of both pre-images. */
  lemma SameMethodDistinctFiles(directory: string, f1: string, f2: string, methodId: string)
    requires f1 != f2
    ensures CacheFile(directory, f1, methodId) != CacheFile(directory, f2, methodId)
  {
    PreimageSplits(directory, f1, methodId);
    PreimageSplits(directory, f2, methodId);
  }

  /** For arbitrary method strings the concatenation is not injective: two
      different (file name, method) pairs can share a cache file. */
  lemma ConcatenationCanCollide(directory: string)
    ensures ("/src/A", "B.php::m") != ("/src/AB", ".php::m")
    ensures CacheFile(directory, "/src/A", "B.php::m") == CacheFile(directory, "/src/AB", ".php::m")
  {
  }

  /** If two pre-images `f1 + m1` and `f2 + m2` coincide, the shorter method is a
      suffix of the longer one. */
  lemma EqualConcatenationsShareSuffix(f1: string, m1: string, f2: string, m2: string)
    requires f1 + m1 == f2 + m2
    requires |m1| <= |m2|
    ensures IsSuffix(m1, m2)
  {
    var s := f1 + m1;
    assert s[|f1|..] == m1;
    assert s[|f2|..] == m2;
    assert m2[|m2| - |m1|..] == s[|f2| + |m2| - |m1|..];
  }

  /** The last and the fourth-to-last character of each method name. */
  function Ending(op: Op): (char, char)
  {
    match op
    case Classes => ('n', 'e')
    case Traits => ('n', 't')
    case Functions => ('n', 'n')
    case LinesOfCode => ('r', 'e')
    case IgnoredLines => ('r', 's')
  }

  /** `Ending` is read off the end of each method identifier. */
  lemma MethodIdEnding(className: string, op: Op)
    ensures |MethodId(className, op)| >= 4
    ensures MethodId(className, op)[|MethodId(className, op)| - 1] == Ending(op).0
    ensures MethodId(className, op)[|MethodId(className, op)| - 4] == Ending(op).1
  {
  }

  /** Strings that differ in their last or fourth-to-last character are not
      suffixes of one another. */
  lemma DifferentEndingNotSuffix(a: string, b: string)
    requires |a| >= 4 && |b| >= 4
    requires a[|a| - 1] != b[|b| - 1] || a[|a| - 4] != b[|b| - 4]
    ensures !IsSuffix(a, b)
  {
  }

  /** No identifier of one wrapper is a suffix of another wrapper's identifier:
      each pair differs in its last or its fourth-to-last character. */
  lemma MethodIdsNotSuffixes(className: string, o1: Op, o2: Op)
    requires o1 != o2
    ensures !IsSuffix(MethodId(className, o1), MethodId(className, o2))
  {
    MethodIdEnding(className, o1);
    MethodIdEnding(className, o2);
    DifferentEndingNotSuffix(MethodId(className, o1), MethodId(className, o2));
  }

  /** For the five wrappers the key derivation is injective: two calls share a
      cache file exactly when they have the same file name and the same operation. */
  lemma KeyInjective(directory: string, className: string, f1: string, o1: Op, f2: string, o2: Op)
    ensures Key(directory, className, f1, o1) == Key(directory, className, f2, o2) <==> f1 == f2 && o1 == o2
  {
    if Key(directory, className, f1, o1) == Key(directory, className, f2, o2) {
      var m1, m2 := MethodId(className, o1), MethodId(className, o2);
      assert f1 + m1 == f2 + m2;
      if o1 != o2 {
        if |m1| <= |m2| {
          EqualConcatenationsShareSuffix(f1, m1, f2, m2);
          MethodIdsNotSuffixes(className, o1, o2);
        } else {
          EqualConcatenationsShareSuffix(f2, m2, f1, m1);
          MethodIdsNotSuffixes(className, o2, o1);
        }
        assert false;
      }
      if f1 != f2 {
        SameMethodDistinctFiles(directory, f1, f2, m1);
      }
    }
  }

  /** The five wrappers of the caching analyser class itself never share a cache
      file for different files or operations. */
  lemma ClassKeysInjective(directory: string, f1: string, o1: Op, f2: string, o2: Op)
    requires f1 != f2 || o1 != o2
    ensures Key(directory, ClassName, f1, o1) != Key(directory, ClassName, f2, o2)
  {
    KeyInjective(directory, ClassName, f1, o1, f2, o2);
  }
}
