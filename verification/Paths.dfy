/**
 Path algebra: splitting at the last slash, the names of saved versions, and why
 structured file keys stand for different path strings.
 */
module Paths {
  import opened Wrappers
  import opened Text
  import opened Parsing

  const MAX_PATH_LEN: nat := 260
  const VERSION_SUBFOLDER: string := "/.versions"
  const MICROS: nat := 1000000
  /** The longest path whose version paths fit their buffer; see VersionPathFits. */
  const LONGEST_PATH: nat := 231

  // ---------------------------------------------------------------- splitting at the last slash

  /** `strrchr`: the last position of `c`, or -1. */
  function LastIndex(s: string, c: char): (i: int)
    ensures -1 <= i < |s|
    ensures i >= 0 ==> s[i] == c
    ensures forall j :: i < j < |s| ==> s[j] != c
  {
    if s == "" then -1
    else if s[|s| - 1] == c then |s| - 1
    else LastIndex(s[..|s| - 1], c)
  }

  function Directory(path: string): string {
    var i := LastIndex(path, '/');
    if i < 0 then "" else path[..i]
  }

  function Basename(path: string): string {
    path[LastIndex(path, '/') + 1..]
  }

  lemma LastIndexIs(s: string, i: nat, c: char)
    requires i < |s| && s[i] == c && c !in s[i + 1..]
    ensures LastIndex(s, c) == i
  {
    forall j | i < j < |s|
      ensures s[j] != c
    {
      assert s[j] == s[i + 1..][j - i - 1];
    }
  }

  lemma SplitLast(x: string, y: string, c: char)
    requires c !in y
    ensures LastIndex(x + [c] + y, c) == |x|
    ensures (x + [c] + y)[..|x|] == x && (x + [c] + y)[|x| + 1..] == y
  {
    LastIndexIs(x + [c] + y, |x|, c);
  }

  /** Directory, slash and basename rebuild the path; the basename is the part after the last slash. */
  lemma PathRebuilds(path: string)
    ensures '/' in path ==> Directory(path) + "/" + Basename(path) == path
    ensures '/' !in path ==> Directory(path) == "" && Basename(path) == path
    ensures '/' !in Basename(path)
  {
    var i := LastIndex(path, '/');
    if '/' !in path {
      assert i == -1;
      assert path[0..] == path;
    }
  }

  /** And only the rebuilt path has those two parts. */
  lemma PathParts(dir: string, base: string)
    requires '/' !in base
    ensures Directory(dir + "/" + base) == dir && Basename(dir + "/" + base) == base
  {
    SplitLast(dir, base, '/');
    assert dir + "/" + base == dir + ['/'] + base;
  }

  method ExtractDirectory(path: Option<string>, buffer: array?<char>) returns (ok: bool)
    requires path.Some? && buffer != null ==> |path.value| < buffer.Length && NUL !in path.value
    modifies buffer
    ensures ok <==> path.Some? && path.value != "" && buffer != null
    ensures ok ==> CString(buffer[..]) == Directory(path.value)
    ensures !ok && buffer != null ==> buffer[..] == old(buffer[..])
  {
    if path.None? || path.value == "" || buffer == null {
      return false;
    }
    var p := path.value;
    CopyString(p, buffer);
    var lastSlash := LastIndex(p, '/');
    var cut := if lastSlash >= 0 then lastSlash else 0;
    buffer[cut] := NUL;
    assert buffer[..][..cut] == p[..cut];
    CStringIs(buffer[..], cut);
    ok := true;
  }

  method ExtractBasename(path: Option<string>, buffer: array?<char>) returns (ok: bool)
    requires path.Some? && buffer != null ==> |path.value| < buffer.Length && NUL !in path.value
    modifies buffer
    ensures ok <==> path.Some? && path.value != "" && buffer != null
    ensures ok ==> CString(buffer[..]) == Basename(path.value)
    ensures !ok && buffer != null ==> buffer[..] == old(buffer[..])
  {
    if path.None? || path.value == "" || buffer == null {
      return false;
    }
    var lastSlash := LastIndex(path.value, '/');
    CopyString(path.value[lastSlash + 1..], buffer);
    ok := true;
  }

  /** `strcpy`. */
  method CopyString(s: string, buffer: array<char>)
    requires |s| < buffer.Length && NUL !in s
    modifies buffer
    ensures buffer[..|s|] == s && buffer[|s|] == NUL && CString(buffer[..]) == s
  {
    forall i | 0 <= i < |s| {
      buffer[i] := s[i];
    }
    buffer[|s|] := NUL;
    assert buffer[..][..|s|] == s;
    CStringIs(buffer[..], |s|);
  }

  // ---------------------------------------------------------------- version names

  /** `sec_usec`; a stamp counts microseconds. */
  function StampText(at: nat): string { Decimal(at / MICROS) + "_" + Decimal(at % MICROS) }

  /** `basename.sec_usec` */
  function VersionName(base: string, at: nat): string {
    base + "." + StampText(at)
  }

  function VersionFolder(dir: string): string { dir + VERSION_SUBFOLDER }

  function VersionPath(path: string, at: nat): string {
    VersionFolder(Directory(path)) + "/" + VersionName(Basename(path), at)
  }

  lemma DecimalHasOnlyDigits(n: nat, c: char)
    requires !IsDigit(c)
    ensures c !in Decimal(n)
  {
  }

  lemma CutAtLast(x: string, y: string, x': string, y': string, c: char)
    requires c !in y && c !in y' && x + [c] + y == x' + [c] + y'
    ensures x == x' && y == y'
  {
    SplitLast(x, y, c);
    SplitLast(x', y', c);
  }

  /** Basename and stamp are recoverable, whatever dots, underscores or digits the basename holds. */
  lemma VersionNameInjective(base: string, at: nat, base': string, at': nat)
    requires VersionName(base, at) == VersionName(base', at')
    ensures base == base' && at == at'
  {
    var sec, usec := Decimal(at / MICROS), Decimal(at % MICROS);
    var sec', usec' := Decimal(at' / MICROS), Decimal(at' % MICROS);
    DecimalHasOnlyDigits(at % MICROS, '_');
    DecimalHasOnlyDigits(at' % MICROS, '_');
    assert VersionName(base, at) == base + "." + sec + "_" + usec;
    assert VersionName(base', at') == base' + "." + sec' + "_" + usec';
    CutAtLast(base + "." + sec, usec, base' + "." + sec', usec', '_');
    DecimalHasOnlyDigits(at / MICROS, '.');
    DecimalHasOnlyDigits(at' / MICROS, '.');
    CutAtLast(base, sec, base', sec', '.');
    DecimalInjective(at / MICROS, at' / MICROS);
    DecimalInjective(at % MICROS, at' % MICROS);
  }

  // ---------------------------------------------------------------- keys

  /** The files of the server: user files and saved versions of user files. */
  datatype Key = User(path: string) | Version(path: string, at: nat)

  /**
   The paths the server is used with: a directory part and a name, short enough, relative and
   without empty, `.`, `..` or `.versions` components, so that a file has one path.
   */
  predicate UserPath(path: string) {
    && '/' in path && |path| <= LONGEST_PATH
    && Basename(path) != ""
    && Join(Tokens(path, '/'), '/') == path
    && "." !in Tokens(path, '/') && ".." !in Tokens(path, '/') && ".versions" !in Tokens(path, '/')
  }

  function KeyPath(k: Key): string {
    match k
    case User(path) => path
    case Version(path, at) => VersionPath(path, at)
  }

  lemma TokensSnoc(x: string, a: string, d: char)
    requires a != "" && d !in a
    ensures Tokens(x + [d] + a, d) == Tokens(x, d) + [a]
  {
    hide Tokens;
    TokensConcat(x, a, d);
    TokensSingle(a, d);
  }

  lemma VersionPathParts(path: string, at: nat)
    ensures Directory(VersionPath(path, at)) == VersionFolder(Directory(path))
    ensures Basename(VersionPath(path, at)) == VersionName(Basename(path), at)
  {
    PathRebuilds(path);
    DecimalHasOnlyDigits(at / MICROS, '/');
    DecimalHasOnlyDigits(at % MICROS, '/');
    PathParts(VersionFolder(Directory(path)), VersionName(Basename(path), at));
  }

  /** A version lies in `.versions` beside its file, under the name, a dot, the seconds and the microseconds. */
  lemma VersionLies(path: string, at: nat)
    ensures Directory(Directory(VersionPath(path, at))) == Directory(path)
    ensures Basename(Directory(VersionPath(path, at))) == ".versions"
    ensures Basename(VersionPath(path, at))
         == Basename(path) + "." + Decimal(at / 1000000) + "_" + Decimal(at % 1000000)
  {
    hide Decimal, Directory, Basename;
    VersionPathParts(path, at);
    assert VersionFolder(Directory(path)) == Directory(path) + "/" + ".versions";
    PathParts(Directory(path), ".versions");
    var base, sec, usec := Basename(path), Decimal(at / 1000000), Decimal(at % 1000000);
    assert base + "." + (sec + "_" + usec) == base + "." + sec + "_" + usec;
  }

  /** For instance. */
  lemma VersionExample()
    ensures VersionPath("data/a", 17000005) == "data/.versions/a.17_5"
  {
    hide Directory, Basename;
    PathParts("data", "a");
    assert "data" + "/" + "a" == "data/a";
    assert Decimal(5) == "5" && Decimal(17) == "17";
    StampTextOf(17, 5);
    assert "data" + "/.versions" + "/" + ("a" + "." + ("17" + "_" + "5")) == "data/.versions/a.17_5";
  }

  /** Different keys are different files: histories never collide, and no version path is a user path. */
  lemma KeyPathInjective(j: Key, k: Key)
    requires UserPath(j.path) && UserPath(k.path)
    requires KeyPath(j) == KeyPath(k)
    ensures j == k
  {
    if j.Version? && k.Version? {
      VersionPathParts(j.path, j.at);
      VersionPathParts(k.path, k.at);
      VersionNameInjective(Basename(j.path), j.at, Basename(k.path), k.at);
      assert Directory(j.path) == VersionFolder(Directory(j.path))[..|Directory(j.path)|];
      assert Directory(k.path) == VersionFolder(Directory(k.path))[..|Directory(k.path)|];
      PathRebuilds(j.path);
      PathRebuilds(k.path);
    } else if j.Version? {
      VersionIsNotUser(j.path, j.at, k.path);
    } else if k.Version? {
      VersionIsNotUser(k.path, k.at, j.path);
    }
  }

  lemma VersionIsNotUser(path: string, at: nat, user: string)
    requires UserPath(user)
    ensures VersionPath(path, at) != user
  {
    VersionIsMarked(path, at);
  }

  /** Every version path has the component that no user path has. */
  lemma VersionIsMarked(path: string, at: nat)
    ensures ".versions" in Tokens(VersionPath(path, at), '/')
  {
    VersionPathParts(path, at);
    PathRebuilds(VersionPath(path, at));
    Marked(VersionPath(path, at), Directory(path), VersionName(Basename(path), at));
  }

  lemma Marked(path: string, dir: string, name: string)
    requires path == VersionFolder(dir) + "/" + name && name != "" && '/' !in name
    ensures ".versions" in Tokens(path, '/')
  {
    hide Tokens;
    TokensSnoc(VersionFolder(dir), name, '/');
    assert VersionFolder(dir) == dir + ['/'] + ".versions";
    TokensSnoc(dir, ".versions", '/');
    var ts := Tokens(dir, '/');
    assert (ts + [".versions"] + [name])[|ts|] == ".versions";
  }

  // ---------------------------------------------------------------- the 260-byte path buffers

  /** With a 10-digit second, 231 is the longest path whose version paths all fit their buffer. */
  lemma VersionPathFits(path: string)
    requires '/' in path
    ensures (forall at: nat :: |Decimal(at / MICROS)| == 10 ==> |VersionPath(path, at)| + 1 <= 260)
       <==> |path| <= 231
  {
    PathRebuilds(path);
    forall at: nat | |Decimal(at / MICROS)| == 10 && |path| <= LONGEST_PATH
      ensures |VersionPath(path, at)| + 1 <= MAX_PATH_LEN
    {
      Million();
      DecimalLength(at % MICROS, 6);
    }
    var at: nat := 1700000000999999;
    assert at / MICROS == 1700000000 && at % MICROS == 999999;
    LongestStamp();
    assert |VersionPath(path, at)| == |path| + 28;
  }

  lemma LongestStamp()
    ensures |Decimal(1700000000)| == 10 && |Decimal(999999)| == 6
  {
    assert Pow10(1) == 10 && Pow10(2) == 100 && Pow10(3) == 1000 && Pow10(4) == 10000 && Pow10(5) == 100000;
    assert Pow10(6) == 1000000 && Pow10(7) == 10000000 && Pow10(8) == 100000000 && Pow10(9) == 1000000000;
    assert Pow10(10) == 10 * Pow10(9);
    DecimalLength(1700000000, 10);
    DecimalLength(1700000000, 9);
    DecimalLength(999999, 6);
    DecimalLength(999999, 5);
  }

  // ---------------------------------------------------------------- which versions a removal reaches

  /** A number as `%ld` prints it: digits, without a leading zero. */
  predicate Canonical(s: string) {
    AllDigits(s) && s != "" && (s[0] == '0' ==> |s| == 1)
  }

  /** Text that can start `sec_usec`. */
  predicate StartsStamp(x: string) {
    if '_' !in x then x == "" || Canonical(x)
    else
      var i := LastIndex(x, '_');
      Canonical(x[..i]) && (x[i + 1..] == "" || (Canonical(x[i + 1..]) && |x| - i - 1 <= 6))
  }

  /** Whether removing a file named `b` can reach a version of its sibling named `base`. */
  predicate Reaches(b: string, base: string) {
    b <= base || (base + "." <= b && StartsStamp(b[|base| + 1..]))
  }

  lemma DecimalShift(v: nat, c: char)
    requires v > 0 && IsDigit(c)
    ensures Decimal(10 * v + DigitValue(c)) == Decimal(v) + [c]
  {
    var d := DigitValue(c);
    assert (10 * v + d) / 10 == v && (10 * v + d) % 10 == d;
    assert DigitChar(d) == c;
  }

  lemma OneDigit(c: char)
    requires IsDigit(c)
    ensures Decimal(DigitValue(c)) == [c]
  {
    assert DigitChar(DigitValue(c)) == c;
  }

  lemma {:induction false} CanonicalIsDecimal(s: string)
    requires Canonical(s)
    ensures Decimal(DigitsValue(s)) == s
  {
    hide Decimal;
    var init, last := s[..|s| - 1], s[|s| - 1];
    if |s| == 1 {
      assert DigitsValue(init) == 0;
      OneDigit(last);
      assert s == [last];
    } else {
      CanonicalIsDecimal(init);
      NonZero(init);
      DecimalShift(DigitsValue(init), last);
    }
  }

  lemma {:induction false} NonZero(s: string)
    requires Canonical(s) && s[0] != '0'
    ensures DigitsValue(s) > 0
  {
    if |s| == 1 {
      assert DigitsValue(s[..0]) == 0;
    } else {
      NonZero(s[..|s| - 1]);
    }
  }

  lemma {:induction false} DecimalCanonical(n: nat)
    ensures Canonical(Decimal(n)) && (n > 0 ==> Decimal(n)[0] != '0')
  {
    if n >= 10 {
      DecimalCanonical(n / 10);
    }
  }

  lemma CanonicalPrefix(x: string, s: string)
    requires Canonical(s) && x <= s && x != ""
    ensures Canonical(x)
  {
    assert x[0] == s[0];
  }

  lemma StampStarts(x: string, sec: nat, usec: nat)
    requires usec < MICROS && x <= Decimal(sec) + "_" + Decimal(usec)
    ensures StartsStamp(x)
  {
    var s, u := Decimal(sec), Decimal(usec);
    var full := s + "_" + u;
    DecimalCanonical(sec);
    DecimalCanonical(usec);
    DecimalHasOnlyDigits(sec, '_');
    DecimalHasOnlyDigits(usec, '_');
    if |x| <= |s| {
      assert x <= s;
      if x != "" {
        CanonicalPrefix(x, s);
      }
    } else {
      var y := u[..|x| - |s| - 1];
      assert x == s + ['_'] + y;
      assert '_' !in y;
      SplitLast(s, y, '_');
      assert x[|s|] == '_';
      if y != "" {
        CanonicalPrefix(y, u);
      }
      Million();
      DecimalLength(usec, 6);
    }
  }

  lemma StampTextOf(sec: nat, usec: nat)
    requires usec < MICROS
    ensures StampText(sec * MICROS + usec) == Decimal(sec) + "_" + Decimal(usec)
  {
    var at := sec * MICROS + usec;
    assert at / MICROS == sec && at % MICROS == usec;
  }

  lemma StampOf(x: string) returns (at: nat)
    requires StartsStamp(x)
    ensures x <= StampText(at)
  {
    if '_' !in x {
      var sec := if x == "" then 0 else DigitsValue(x);
      at := sec * MICROS + 0;
      StampTextOf(sec, 0);
      if x != "" {
        CanonicalIsDecimal(x);
      }
    } else {
      var i := LastIndex(x, '_');
      var s, u := x[..i], x[i + 1..];
      assert x == s + "_" + u;
      at := StampWithParts(s, u);
    }
  }

  lemma StampWithParts(s: string, u: string) returns (at: nat)
    requires Canonical(s) && (u == "" || (Canonical(u) && |u| <= 6))
    ensures s + "_" + u <= StampText(at)
  {
    hide Decimal, Pow10, Canonical;
    CanonicalIsDecimal(s);
    var usec := 0;
    if u != "" {
      CanonicalIsDecimal(u);
      usec := DigitsValue(u);
      MicrosBound(u);
    }
    at := DigitsValue(s) * MICROS + usec;
    StampTextOf(DigitsValue(s), usec);
    assert StampText(at)[..|s + "_" + u|] == s + "_" + u;
  }

  /** Six digits stay below a million. */
  lemma MicrosBound(u: string)
    requires Canonical(u) && |u| <= 6
    ensures DigitsValue(u) < MICROS
  {
    hide Decimal, Pow10, Canonical;
    CanonicalIsDecimal(u);
    Million();
    DecimalLength(DigitsValue(u), 6);
  }

  lemma Million()
    ensures Pow10(6) == MICROS
  {
    assert Pow10(1) == 10 && Pow10(2) == 100 && Pow10(3) == 1000 && Pow10(4) == 10000 && Pow10(5) == 100000;
  }

  /** The prefix test of `handleRemoveRequest` hits some version of `base` exactly when `b` reaches `base`. */
  lemma ReachesExactly(b: string, base: string)
    ensures Reaches(b, base) <==> exists at: nat :: b <= VersionName(base, at)
  {
    forall at: nat | b <= VersionName(base, at)
      ensures Reaches(b, base)
    {
      var stamp := StampText(at);
      var dotted := base + ".";
      assert VersionName(base, at) == dotted + stamp;
      if |b| > |base| {
        assert b[..|dotted|] == dotted;
        var x := b[|base| + 1..];
        assert x == stamp[..|x|];
        StampStarts(x, at / MICROS, at % MICROS);
      }
    }
    if Reaches(b, base) {
      if b <= base {
        assert b <= VersionName(base, 0);
      } else {
        var x := b[|base| + 1..];
        var at := StampOf(x);
        assert b == base + "." + x;
        assert b <= VersionName(base, at);
      }
    }
  }
}
