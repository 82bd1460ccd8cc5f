/**
 * Text helpers shared by the slip workflow: the Python string formatting the
 * handlers rely on (`str(n)`, `f"{n:04d}"`, `", ".join`, `str.split`,
 * `os.path.join`, `str.replace`) and the textual form of document ids.
 */
module Common {

  datatype Option<+T> = None | Some(value: T)

  /** Python truthiness of an optional string: neither None nor "". */
  predicate Truthy(s: Option<string>) {
    s.Some? && s.value != ""
  }

  /** `dict.get(key)` on a string-valued dictionary. */
  function Get<K, V>(m: map<K, V>, k: K): (r: Option<V>)
    ensures r.Some? <==> k in m
    ensures r.Some? ==> r.value == m[k]
  {
    if k in m then Some(m[k]) else None
  }

  function Max(a: int, b: int): int {
    if a < b then b else a
  }

  // ---------------------------------------------------------------------------
  // Decimal numerals
  // ---------------------------------------------------------------------------

  predicate IsDigit(c: char) {
    '0' <= c <= '9'
  }

  predicate AllDigits(s: string) {
    forall i :: 0 <= i < |s| ==> IsDigit(s[i])
  }

  function DigitChar(d: nat): (c: char)
    requires d < 10
    ensures IsDigit(c) && c as int - '0' as int == d
  {
    (d + '0' as int) as char
  }

  function DigitValue(c: char): nat
    requires IsDigit(c)
  {
    c as int - '0' as int
  }

  function Pow10(k: nat): (p: nat)
    ensures p >= 1
  {
    if k == 0 then 1 else 10 * Pow10(k - 1)
  }

  /** `str(n)` for a non-negative integer: no sign, no leading zeros. */
  function Decimal(n: nat): (s: string)
    ensures 1 <= |s| && AllDigits(s)
    ensures |s| > 1 ==> s[0] != '0'
  {
    if n < 10 then [DigitChar(n)] else Decimal(n / 10) + [DigitChar(n % 10)]
  }

  /** The value of a digit string; leading zeros are allowed. */
  function DecimalValue(s: string): nat
    requires AllDigits(s)
  {
    if s == [] then 0 else 10 * DecimalValue(s[..|s| - 1]) + DigitValue(s[|s| - 1])
  }

  lemma {:induction false} DecimalRoundTrip(n: nat)
    ensures DecimalValue(Decimal(n)) == n
  {
    if n >= 10 {
      var s := Decimal(n);
      assert s[..|s| - 1] == Decimal(n / 10);
      DecimalRoundTrip(n / 10);
    }
  }

  /** `str(n)` has at most k digits exactly when n < 10^k. */
  lemma {:induction false} DecimalLength(n: nat, k: nat)
    requires k >= 1
    ensures |Decimal(n)| <= k <==> n < Pow10(k)
  {
    if n >= 10 {
      if k == 1 {
        assert Pow10(1) == 10;
      } else {
        DecimalLength(n / 10, k - 1);
        assert n / 10 < Pow10(k - 1) <==> n < 10 * Pow10(k - 1);
      }
    } else {
      PowAtLeast10(k);
    }
  }

  lemma {:induction false} PowAtLeast10(k: nat)
    requires k >= 1
    ensures Pow10(k) >= 10
  {
    if k > 1 {
      PowAtLeast10(k - 1);
    }
  }

  function Zeros(k: nat): (s: string)
    ensures |s| == k && AllDigits(s)
    ensures forall i :: 0 <= i < k ==> s[i] == '0'
  {
    if k == 0 then [] else Zeros(k - 1) + ['0']
  }

  lemma {:induction false} ZerosValue(k: nat)
    ensures DecimalValue(Zeros(k)) == 0
  {
    if k > 0 {
      assert Zeros(k)[..k - 1] == Zeros(k - 1);
      ZerosValue(k - 1);
    }
  }

  /** Leading zeros do not change the value of a numeral. */
  lemma {:induction false} LeadingZerosValue(k: nat, s: string)
    requires AllDigits(s)
    ensures AllDigits(Zeros(k) + s) && DecimalValue(Zeros(k) + s) == DecimalValue(s)
  {
    var t := Zeros(k) + s;
    if s == [] {
      assert t == Zeros(k);
      ZerosValue(k);
    } else {
      assert t[..|t| - 1] == Zeros(k) + s[..|s| - 1];
      LeadingZerosValue(k, s[..|s| - 1]);
    }
  }

  /**
   * `f"{n:04d}"`: zero-padded to at least four digits, never truncated.
   */
  function Pad4(n: nat): (s: string)
    ensures AllDigits(s) && |s| == Max(4, |Decimal(n)|)
    ensures DecimalValue(s) == n
    ensures |s| == 4 <==> n < 10000
    ensures n >= 1000 ==> s == Decimal(n)
  {
    var d := Decimal(n);
    DecimalRoundTrip(n);
    DecimalLength(n, 4);
    DecimalLength(n, 3);
    assert Pow10(4) == 10000 && Pow10(3) == 1000;
    if |d| >= 4 then d
    else
      LeadingZerosValue(4 - |d|, d);
      Zeros(4 - |d|) + d
  }

  // ---------------------------------------------------------------------------
  // Sequences of characters
  // ---------------------------------------------------------------------------

  predicate StartsWith(s: string, prefix: string) {
    |prefix| <= |s| && s[..|prefix|] == prefix
  }

  /** The first index of `c` in `s`. */
  function IndexOf(s: string, c: char): (r: Option<nat>)
    ensures r.None? <==> c !in s
    ensures r.Some? ==> r.value < |s| && s[r.value] == c && c !in s[..r.value]
  {
    if s == [] then None
    else if s[0] == c then Some(0)
    else
      var r := IndexOf(s[1..], c);
      assert s == [s[0]] + s[1..];
      if r.None? then None
      else
        assert s[..r.value + 1] == [s[0]] + s[1..][..r.value];
        Some(r.value + 1)
  }

  /** Splitting at the first `c`: a prefix free of `c` is determined by the text. */
  lemma IndexOfAfterPrefix(a: string, c: char, b: string)
    requires c !in a
    ensures IndexOf(a + [c] + b, c) == Some(|a|)
  {
    var s := a + [c] + b;
    assert s[|a|] == c;
    assert s[..|a|] == a;
  }

  /** Two texts of the shape `a + [c] + b` with `c` not in `a` split identically. */
  lemma SplitUnique(a1: string, b1: string, a2: string, b2: string, c: char)
    requires c !in a1 && c !in a2
    requires a1 + [c] + b1 == a2 + [c] + b2
    ensures a1 == a2 && b1 == b2
  {
    IndexOfAfterPrefix(a1, c, b1);
    IndexOfAfterPrefix(a2, c, b2);
    var s := a1 + [c] + b1;
    assert a1 == s[..|a1|] && a2 == s[..|a2|];
    assert b1 == s[|a1| + 1..] && b2 == s[|a2| + 1..];
  }

  /** `s.split(c)[-1]`: the text after the last `c`, or all of `s`. */
  function LastSegment(s: string, c: char): (r: string)
    ensures c !in r
    ensures |r| <= |s| && s[|s| - |r|..] == r
    ensures |r| < |s| ==> s[|s| - |r| - 1] == c
  {
    if s == [] then []
    else if s[|s| - 1] == c then []
    else LastSegment(s[..|s| - 1], c) + [s[|s| - 1]]
  }

  /** `s.replace(a, b)` for single characters. */
  function ReplaceChar(s: string, a: char, b: char): (r: string)
    ensures |r| == |s|
  {
    if s == [] then [] else ReplaceChar(s[..|s| - 1], a, b) + [if s[|s| - 1] == a then b else s[|s| - 1]]
  }

  /** Each character equal to `a` becomes `b`; every other one is kept. */
  lemma {:induction false} ReplaceCharAt(s: string, a: char, b: char)
    ensures forall i :: 0 <= i < |s| ==> ReplaceChar(s, a, b)[i] == if s[i] == a then b else s[i]
  {
    if s != [] {
      ReplaceCharAt(s[..|s| - 1], a, b);
    }
  }

  lemma ReplaceCharConcat(s: string, t: string, a: char, b: char)
    ensures ReplaceChar(s + t, a, b) == ReplaceChar(s, a, b) + ReplaceChar(t, a, b)
  {
    ReplaceCharAt(s + t, a, b);
    ReplaceCharAt(s, a, b);
    ReplaceCharAt(t, a, b);
  }

  /** `sep.join(xs)`. */
  function Join(xs: seq<string>, sep: string): (r: string)
    ensures xs == [] ==> r == ""
    ensures |xs| == 1 ==> r == xs[0]
  {
    if xs == [] then "" else if |xs| == 1 then xs[0] else xs[0] + sep + Join(xs[1..], sep)
  }

  /**
   * `posixpath.join(a, b)`: an absolute `b` replaces `a`; otherwise a single
   * `/` is put between them unless `a` is empty or already ends with one.
   */
  function PathJoin(a: string, b: string): (r: string)
    ensures StartsWith(b, "/") ==> r == b
    ensures !StartsWith(b, "/") && a != "" && a[|a| - 1] != '/' ==> r == a + "/" + b
  {
    if StartsWith(b, "/") then b
    else if a == "" || a[|a| - 1] == '/' then a + b
    else a + "/" + b
  }

  /**
   * `os.path.join('uploads', folder, slipId, name).replace('\\', '/')`, the
   * relative path under which an uploaded file is recorded.
   */
  function UploadPath(folder: string, slipId: string, name: string): string {
    ReplaceChar(PathJoin(PathJoin(PathJoin("uploads", folder), slipId), name), '\\', '/')
  }

  /** Joining a relative `b` onto a non-empty `a` that does not end in `/` puts one `/` between them. */
  lemma JoinPlain(a: string, b: string)
    requires a != "" && a[|a| - 1] != '/' && !StartsWith(b, "/")
    ensures PathJoin(a, b) == a + "/" + b
    ensures b != "" ==> PathJoin(a, b)[|PathJoin(a, b)| - 1] == b[|b| - 1]
  {
  }

  /**
   * Joining a relative `b` onto an empty `a`, or onto one that already ends
   * in `/`, adds no separator.
   */
  lemma JoinOntoSeparator(a: string, b: string)
    requires !StartsWith(b, "/") && (a == "" || a[|a| - 1] == '/')
    ensures PathJoin(a, b) == a + b
    ensures a == "" ==> PathJoin(a, b) == b
  {
  }

  /**
   * For plain (non-empty, relative, slash-free at the end) components the
   * recorded path is the components joined by `/`, with every backslash
   * turned into a forward slash.
   */
  lemma UploadPathShape(folder: string, slipId: string, name: string)
    requires folder != "" && !StartsWith(folder, "/") && folder[|folder| - 1] != '/'
    requires slipId != "" && !StartsWith(slipId, "/") && slipId[|slipId| - 1] != '/'
    requires !StartsWith(name, "/")
    ensures UploadPath(folder, slipId, name)
            == ReplaceChar("uploads/" + folder + "/" + slipId + "/" + name, '\\', '/')
  {
    PlainJoins(folder, slipId, name);
  }

  lemma PlainJoins(folder: string, slipId: string, name: string)
    requires folder != "" && !StartsWith(folder, "/") && folder[|folder| - 1] != '/'
    requires slipId != "" && !StartsWith(slipId, "/") && slipId[|slipId| - 1] != '/'
    requires !StartsWith(name, "/")
    ensures PathJoin(PathJoin(PathJoin("uploads", folder), slipId), name) == "uploads/" + folder + "/" + slipId + "/" + name
  {
    JoinPlain("uploads", folder);
    var p1 := "uploads" + "/" + folder;
    JoinPlain(p1, slipId);
    var p2 := p1 + "/" + slipId;
    JoinPlain(p2, name);
    assert p2 + "/" + name == "uploads/" + folder + "/" + slipId + "/" + name;
  }

  // ---------------------------------------------------------------------------
  // Hexadecimal text of document ids
  // ---------------------------------------------------------------------------

  predicate IsHexChar(c: char) {
    IsDigit(c) || 'a' <= c <= 'f' || 'A' <= c <= 'F'
  }

  predicate AllHex(s: string) {
    forall i :: 0 <= i < |s| ==> IsHexChar(s[i])
  }

  function HexDigitValue(c: char): (v: nat)
    requires IsHexChar(c)
    ensures v < 16
  {
    if IsDigit(c) then c as int - '0' as int
    else if 'a' <= c <= 'f' then c as int - 'a' as int + 10
    else c as int - 'A' as int + 10
  }

  function HexDigit(d: nat): (c: char)
    requires d < 16
    ensures IsHexChar(c) && HexDigitValue(c) == d
    ensures !('A' <= c <= 'F')
  {
    if d < 10 then (d + '0' as int) as char else (d - 10 + 'a' as int) as char
  }

  function Pow16(k: nat): (p: nat)
    ensures p >= 1
  {
    if k == 0 then 1 else 16 * Pow16(k - 1)
  }

  /** The lowest `w` hexadecimal digits of `n`, lower case, zero-padded. */
  function HexText(n: nat, w: nat): (s: string)
    ensures |s| == w && AllHex(s)
  {
    if w == 0 then [] else HexText(n / 16, w - 1) + [HexDigit(n % 16)]
  }

  function HexValue(s: string): nat
    requires AllHex(s)
  {
    if s == [] then 0 else 16 * HexValue(s[..|s| - 1]) + HexDigitValue(s[|s| - 1])
  }

  lemma {:induction false} HexRoundTrip(n: nat, w: nat)
    requires n < Pow16(w)
    ensures HexValue(HexText(n, w)) == n
  {
    if w > 0 {
      var s := HexText(n, w);
      assert s[..w - 1] == HexText(n / 16, w - 1);
      HexRoundTrip(n / 16, w - 1);
    }
  }

  /** Width of the text form of a document `_id` (twelve bytes). */
  const ObjectIdDigits: nat := 24

  /** `str(oid)`: twenty-four lower-case hexadecimal digits. */
  function ObjectIdText(oid: nat): (s: string)
    ensures |s| == ObjectIdDigits && AllHex(s)
  {
    HexText(oid, ObjectIdDigits)
  }

  /**
   * `ObjectId(text)`: twenty-four hexadecimal digits in either case; any
   * other text raises, which is `None` here.
   */
  function ParseObjectId(s: string): (r: Option<nat>)
    ensures r.Some? <==> |s| == ObjectIdDigits && AllHex(s)
  {
    if |s| == ObjectIdDigits && AllHex(s) then Some(HexValue(s)) else None
  }

  /** Every id below 16^24 survives a trip through its text form. */
  lemma ObjectIdRoundTrip(oid: nat)
    requires oid < Pow16(ObjectIdDigits)
    ensures ParseObjectId(ObjectIdText(oid)) == Some(oid)
  {
    HexRoundTrip(oid, ObjectIdDigits);
  }

  // ---------------------------------------------------------------------------
  // Iterating over a set
  // ---------------------------------------------------------------------------

  /** `xs` lists every member of `s` exactly once. */
  predicate EnumeratesOnce<T(==)>(xs: seq<T>, s: set<T>) {
    && |xs| == |s|
    && (forall k :: 0 <= k < |xs| ==> xs[k] in s)
    && (forall x :: x in s ==> x in xs)
    && (forall i, j :: 0 <= i < j < |xs| ==> xs[i] != xs[j])
  }

  /** Listing one more, new member keeps the listing exact. */
  lemma EnumeratesOnceStep<T>(xs: seq<T>, done: set<T>, x: T)
    requires EnumeratesOnce(xs, done) && x !in done
    ensures EnumeratesOnce(xs + [x], done + {x})
  {
    var ys := xs + [x];
    forall m | m in done + {x} ensures m in ys {
      if m != x {
        var k :| 0 <= k < |xs| && xs[k] == m;
        assert ys[k] == m;
      } else {
        assert ys[|xs|] == x;
      }
    }
  }

  /**
   * The order in which iterating over a set (or `list(s)`) yields its
   * members: each one exactly once, in no order the program can rely on.
   */
  method IterationOrder<T>(s: set<T>) returns (xs: seq<T>)
    ensures EnumeratesOnce(xs, s)
  {
    var remaining := s;
    xs := [];
    while remaining != {}
      invariant remaining <= s
      invariant EnumeratesOnce(xs, s - remaining)
      decreases |remaining|
    {
      var x :| x in remaining;
      EnumeratesOnceStep(xs, s - remaining, x);
      assert s - (remaining - {x}) == (s - remaining) + {x};
      xs := xs + [x];
      remaining := remaining - {x};
    }
  }
}
