/**
 * Naming of a session's telemetry cache directory (`generateCacheDirForCurrentTime` in
 * RotatedBuffersSessionWriter.kt): the wall-clock time in milliseconds, written in
 * decimal, as a child of the root cache directory, resolved to an absolute directory and
 * followed by a trailing `/`.  How the file system resolves a path to an absolute
 * directory is not modelled: it is the function `absoluteDir`.
 */
module CacheDirs {

  /** The decimal digit for `d`. */
  function DigitChar(d: nat): (c: char)
    requires d < 10
    ensures '0' <= c <= '9' && c as int - '0' as int == d
  {
    (('0' as int) + d) as char
  }

  predicate IsDigit(c: char) {
    '0' <= c <= '9'
  }

  /** `Long.toString()` of a non-negative value: decimal, no sign, no leading zeros. */
  function Decimal(n: nat): (s: seq<char>)
    ensures |s| >= 1 && forall i :: 0 <= i < |s| ==> IsDigit(s[i])
    ensures s[0] == '0' <==> n == 0
    decreases n
  {
    if n < 10 then [DigitChar(n)] else Decimal(n / 10) + [DigitChar(n % 10)]
  }

  /** Reading a string of decimal digits back as a number. */
  function ParseDecimal(s: seq<char>): nat
  {
    if s == [] then 0
    else if IsDigit(s[|s| - 1]) then 10 * ParseDecimal(s[..|s| - 1]) + (s[|s| - 1] as int - '0' as int)
    else 10 * ParseDecimal(s[..|s| - 1])
  }

  /** The directory name is non-empty, all digits (so it names one path component), and reads back as the time. */
  lemma {:induction false} DecimalRoundTrip(n: nat)
    ensures |Decimal(n)| >= 1
    ensures forall i :: 0 <= i < |Decimal(n)| ==> IsDigit(Decimal(n)[i])
    ensures ParseDecimal(Decimal(n)) == n
    decreases n
  {
    if n >= 10 {
      DecimalRoundTrip(n / 10);
      var s := Decimal(n);
      assert s[..|s| - 1] == Decimal(n / 10);
    }
  }

  /** Two different times give two different directory names. */
  lemma DecimalInjective(m: nat, n: nat)
    ensures Decimal(m) == Decimal(n) ==> m == n
  {
    DecimalRoundTrip(m);
    DecimalRoundTrip(n);
  }

  /** `File(parent, child)`: the child name below the parent path. */
  function JoinPath(parent: string, child: string): (path: string)
    ensures |path| == |parent| + 1 + |child|
    ensures path[..|parent|] == parent && path[|parent|] == '/' && path[|parent| + 1..] == child
  {
    parent + "/" + child
  }

  /** The cache directory of a session started at wall-clock time `nowMillis`. */
  function CacheDir(rootCacheDir: string, absoluteDir: string -> string, nowMillis: nat): (dir: string)
    ensures |dir| >= 1 && dir[|dir| - 1] == '/'
  {
    absoluteDir(JoinPath(rootCacheDir, Decimal(nowMillis))) + "/"
  }

  predicate AllDigits(s: string) {
    forall i | 0 <= i < |s| :: IsDigit(s[i])
  }

  /**
   * Path resolution keeps apart the differently named all-digit children of the root: the
   * only paths the cache directory is ever built from.
   */
  ghost predicate KeepsChildrenApart(rootCacheDir: string, absoluteDir: string -> string) {
    forall a, b | AllDigits(a) && AllDigits(b) && a != b ::
      absoluteDir(JoinPath(rootCacheDir, a)) != absoluteDir(JoinPath(rootCacheDir, b))
  }

  /**
   * When path resolution keeps the root's differently named children apart, sessions
   * started at different milliseconds get different cache directories.
   */
  lemma DistinctTimesDistinctDirs(rootCacheDir: string, absoluteDir: string -> string, m: nat, n: nat)
    requires KeepsChildrenApart(rootCacheDir, absoluteDir)
    requires m != n
    ensures CacheDir(rootCacheDir, absoluteDir, m) != CacheDir(rootCacheDir, absoluteDir, n)
  {
    DecimalInjective(m, n);
    assert AllDigits(Decimal(m)) && AllDigits(Decimal(n));
    var dm, dn := CacheDir(rootCacheDir, absoluteDir, m), CacheDir(rootCacheDir, absoluteDir, n);
    assert dm[..|dm| - 1] != dn[..|dn| - 1];
  }

  /** A resolver that makes a relative path absolute by prefixing a working directory. */
  function Absolutize(cwd: string, path: string): (abs: string)
    ensures |path| >= 1 && path[0] == '/' ==> abs == path
    ensures |abs| >= 1 && abs[0] == '/'
  {
    if |path| >= 1 && path[0] == '/' then path else "/" + cwd + "/" + path
  }

  /**
   * Such a resolver merges a relative path with its absolute form, yet it keeps the
   * children of an absolute root apart, so `DistinctTimesDistinctDirs` applies to it.
   */
  lemma AbsolutizeKeepsChildrenApart(cwd: string, rootCacheDir: string)
    requires |rootCacheDir| >= 1 && rootCacheDir[0] == '/'
    ensures KeepsChildrenApart(rootCacheDir, p => Absolutize(cwd, p))
    ensures Absolutize(cwd, "cache") == Absolutize(cwd, "/" + cwd + "/cache")
  {
    forall a, b | AllDigits(a) && AllDigits(b) && a != b
      ensures Absolutize(cwd, JoinPath(rootCacheDir, a)) != Absolutize(cwd, JoinPath(rootCacheDir, b))
    {
      var pa, pb := JoinPath(rootCacheDir, a), JoinPath(rootCacheDir, b);
      assert pa[0] == rootCacheDir[0] && pb[0] == rootCacheDir[0];
      assert pa[|rootCacheDir| + 1..] == a && pb[|rootCacheDir| + 1..] == b;
    }
  }
}
