/** Paths of the file cache: pkg/engines/image-url-fetch/cache/file_store.go, lines 55-99, and filepath.Join. */
module CachePaths {
  import opened MemoryIndex

  // ----- Paths -----

  function Split(s: string): (r: seq<string>)
    ensures r != []
  {
    if s == "" then [""]
    else
      var rest := Split(s[1..]);
      if s[0] == '/' then [""] + rest else [[s[0]] + rest[0]] + rest[1..]
  }

  function Clean(stack: Path, parts: seq<string>): Path
    decreases |parts|
  {
    if parts == [] then stack
    else if parts[0] in {"", "."} then Clean(stack, parts[1..])
    else if parts[0] == ".." then Clean(if stack == [] then [] else stack[..|stack| - 1], parts[1..])
    else Clean(stack + [parts[0]], parts[1..])
  }

  /** filepath.Join below an absolute, clean directory. */
  function Join(dir: Path, s: string): Path {
    Clean(dir, Split(s))
  }

  /** A name of one directory entry. */
  predicate Plain(s: string) {
    s !in {"", ".", ".."} && '/' !in s
  }

  lemma {:induction false} SplitWhole(s: string)
    requires '/' !in s
    ensures Split(s) == [s]
  {
    if s != "" {
      SplitWhole(s[1..]);
      assert [s[0]] + s[1..] == s;
    }
  }

  lemma {:induction false} SplitAppend(a: string, b: string)
    requires '/' !in a
    ensures Split(a + "/" + b) == [a] + Split(b)
  {
    if a == "" {
      assert a + "/" + b == "/" + b;
      assert ("/" + b)[1..] == b;
    } else {
      SplitAppend(a[1..], b);
      assert (a + "/" + b)[1..] == a[1..] + "/" + b;
      assert [a[0]] + a[1..] == a;
    }
  }

  lemma CleanOne(dir: Path, s: string)
    requires '/' !in s
    ensures Plain(s) ==> Join(dir, s) == dir + [s]
    ensures |Join(dir, s)| <= |dir| + 1
  {
    SplitWhole(s);
    assert [s][1..] == [];
    CleanNothing(dir);
    CleanNothing(dir + [s]);
    if dir != [] {
      CleanNothing(dir[..|dir| - 1]);
    }
  }

  lemma CleanNothing(stack: Path)
    ensures Clean(stack, []) == stack
  {
  }

  predicate KeyOk(key: string) {
    key != "" && '/' !in key && '\\' !in key
  }

  function FileName(key: string): string {
    key + ".bin"
  }

  /** objectPaths. */
  function DataPath(root: Path, bucket: string, key: string): Path {
    Join(Join(root, bucket), FileName(key))
  }

  lemma DataPathIs(root: Path, bucket: string, key: string)
    requires Plain(bucket) && KeyOk(key)
    ensures DataPath(root, bucket, key) == root + [bucket, FileName(key)]
  {
    CleanOne(root, bucket);
    assert Plain(FileName(key)) by {
      assert |FileName(key)| >= 5;
    }
    CleanOne(root + [bucket], FileName(key));
    assert root + [bucket] + [FileName(key)] == root + [bucket, FileName(key)];
  }

  lemma DataPathsDiffer(root: Path, b: string, k: string, c: string, j: string)
    requires Plain(b) && KeyOk(k) && Plain(c) && KeyOk(j)
    ensures DataPath(root, b, k) == DataPath(root, c, j) <==> b == c && k == j
  {
    DataPathIs(root, b, k);
    DataPathIs(root, c, j);
    if DataPath(root, b, k) == DataPath(root, c, j) {
      assert (root + [b, FileName(k)])[|root|] == b && (root + [c, FileName(j)])[|root|] == c;
      assert (root + [b, FileName(k)])[|root| + 1] == FileName(k);
      assert (root + [c, FileName(j)])[|root| + 1] == FileName(j);
      assert FileName(k)[..|FileName(k)| - 4] == k && FileName(j)[..|FileName(j)| - 4] == j;
    }
  }

  /** A bucket argument without a slash never names a cached file. */
  lemma NoSlashNoStrike(root: Path, arg: string, b: string, k: string)
    requires '/' !in arg && Plain(b) && KeyOk(k)
    ensures Join(root, arg) != DataPath(root, b, k)
  {
    CleanOne(root, arg);
    DataPathIs(root, b, k);
  }

  /** One with a slash may. */
  lemma SlashStrikes(root: Path, b: string, k: string)
    requires Plain(b) && KeyOk(k)
    ensures Join(root, b + "/" + FileName(k)) == DataPath(root, b, k)
  {
    DataPathIs(root, b, k);
    SplitAppend(b, FileName(k));
    SplitWhole(FileName(k));
    var parts := [b] + [FileName(k)];
    assert |FileName(k)| >= 5;
    assert parts[1..] == [FileName(k)] && parts[1..][1..] == [];
    assert Clean(root, parts) == Clean(root + [b], parts[1..]);
    assert Clean(root + [b], parts[1..]) == Clean(root + [b] + [FileName(k)], []);
    assert root + [b] + [FileName(k)] == root + [b, FileName(k)];
  }

  // ----- Buckets -----

  function Digits(n: nat): string {
    if n < 10 then [(n + 48) as char] else Digits(n / 10) + [(n % 10 + 48) as char]
  }

  function Decimal(n: int): string {
    if n < 0 then "-" + Digits(-n) else Digits(n)
  }

  lemma {:induction false} DigitsAre(n: nat)
    ensures Digits(n) != "" && forall c :: c in Digits(n) ==> '0' <= c <= '9'
  {
    if n >= 10 {
      DigitsAre(n / 10);
    }
  }

  lemma DecimalPlain(n: int)
    ensures Plain(Decimal(n))
  {
    DigitsAre(if n < 0 then -n else n);
    assert Decimal(n)[|Decimal(n)| - 1] != '.';
  }

  lemma {:induction false} DigitsInjective(m: nat, n: nat)
    requires Digits(m) == Digits(n)
    ensures m == n
  {
    if m >= 10 && n >= 10 {
      var a, b := Digits(m), Digits(n);
      assert a[..|a| - 1] == Digits(m / 10) && b[..|b| - 1] == Digits(n / 10);
      assert a[|a| - 1] == (m % 10 + 48) as char && b[|b| - 1] == (n % 10 + 48) as char;
      DigitsInjective(m / 10, n / 10);
    } else if m >= 10 {
      DigitsAre(m / 10);
    } else if n >= 10 {
      DigitsAre(n / 10);
    }
  }

  const SECOND := 1_000_000_000

  /** The window in whole seconds; durations are in nanoseconds. */
  function Window(duration: int): (sec: nat)
    ensures sec > 0
  {
    if duration <= 0 then 60
    else if duration / SECOND <= 0 then 1
    else duration / SECOND
  }

  /** Go's remainder, which takes the sign of the dividend. */
  function Rem(u: int, d: nat): int
    requires d > 0
  {
    if u >= 0 then u % d else -((-u) % d)
  }

  /** bucketID, of a time in Unix seconds. */
  function BucketID(duration: int, u: int): string {
    Decimal(u - Rem(u, Window(duration)))
  }

  lemma Aligned(u: nat, v: nat, d: nat)
    requires d > 0
    ensures u - u % d == v - v % d <==> u / d == v / d
  {
    assert u == d * (u / d) + u % d && v == d * (v / d) + v % d;
    if u / d < v / d {
      TimesLess(d, u / d, v / d);
    } else if v / d < u / d {
      TimesLess(d, v / d, u / d);
    }
  }

  lemma TimesLess(d: nat, a: nat, b: nat)
    requires d > 0 && a < b
    ensures d * a < d * b
  {
    assert d * b == d * a + d * (b - a);
    assert d * (b - a) > 0;
  }

  lemma BucketIs(duration: int, u: nat)
    ensures u - u % Window(duration) >= 0 && BucketID(duration, u) == Digits(u - u % Window(duration))
  {
    hide Window, Digits;
    var d := Window(duration);
    assert u == d * (u / d) + u % d && d * (u / d) >= 0;
  }

  /** Two times share a bucket exactly when they fall in the same window. */
  lemma BucketsAreWindows(duration: int, u: nat, v: nat)
    ensures BucketID(duration, u) == BucketID(duration, v) <==> u / Window(duration) == v / Window(duration)
  {
    hide Window, Digits;
    var d := Window(duration);
    Aligned(u, v, d);
    BucketIs(duration, u);
    BucketIs(duration, v);
    if BucketID(duration, u) == BucketID(duration, v) {
      DigitsInjective(u - u % d, v - v % d);
    }
  }

  /** The number that decimal digits stand for. */
  function Value(s: string): int {
    if s == "" then 0 else Value(s[..|s| - 1]) * 10 + (s[|s| - 1] as int - 48)
  }

  lemma {:induction false} DigitsValue(n: nat)
    ensures Value(Digits(n)) == n
  {
    if n >= 10 {
      DigitsValue(n / 10);
      var s := Digits(n);
      assert s[..|s| - 1] == Digits(n / 10);
    } else {
      assert Digits(n)[..0] == "";
    }
  }

  /** A bucket is named by the decimal number of the second at which its window starts. */
  lemma BucketNamesStart(duration: int, u: nat) returns (start: nat, q: nat)
    ensures start == Window(duration) * q && start <= u < start + Window(duration)
    ensures Value(BucketID(duration, u)) == start
  {
    hide Window, Digits, Value;
    var d := Window(duration);
    BucketIs(duration, u);
    start, q := u - u % d, u / d;
    DigitsValue(start);
  }
}
