/** Values shared by every part of the model: optional and failing results,
    the Python exceptions the pipeline can raise, decimal text and sequence
    concatenation. */
module Common {

  /** Python's `None` or a value. */
  datatype Option<+T> = None | Some(value: T)

  /** The exceptions the modelled code lets escape. */
  datatype PyError = TypeError | AttributeError

  /** A computation that returns a value or raises one of the exceptions above. */
  datatype Result<+T> = Ok(value: T) | Err(error: PyError)

  predicate IsDigit(c: char) { '0' <= c <= '9' }

  predicate AllDigits(s: string) { forall i :: 0 <= i < |s| ==> IsDigit(s[i]) }

  function DigitValue(c: char): (d: nat)
    requires IsDigit(c)
    ensures d < 10
  {
    (c as int - '0' as int) as nat
  }

  function DigitChar(d: nat): (c: char)
    requires d < 10
    ensures IsDigit(c) && DigitValue(c) == d
  {
    ('0' as int + d) as char
  }

  /** The decimal text Python writes for a non-negative int (`str(n)`, `f"{n}"`). */
  function Decimal(n: nat): (s: string)
    ensures 1 <= |s| && AllDigits(s)
    ensures n < 10 <==> |s| == 1
    decreases n
  {
    if n < 10 then [DigitChar(n)] else Decimal(n / 10) + [DigitChar(n % 10)]
  }

  /** The number a string of decimal digits denotes (leading zeros allowed). */
  function DigitsValue(s: string): nat
    requires AllDigits(s)
    decreases |s|
  {
    if s == [] then 0 else 10 * DigitsValue(s[..|s| - 1]) + DigitValue(s[|s| - 1])
  }

  function Zeros(k: nat): (s: string)
    ensures |s| == k && AllDigits(s)
    ensures forall i :: 0 <= i < k ==> s[i] == '0'
  {
    if k == 0 then "" else "0" + Zeros(k - 1)
  }

  /** Python's `f"{n:0{width}d}"`: the decimal text, left-padded with zeros to `width`. */
  function ZeroPad(n: nat, width: nat): (s: string)
    ensures AllDigits(s)
    ensures |s| == if |Decimal(n)| < width then width else |Decimal(n)|
  {
    if |Decimal(n)| < width then Zeros(width - |Decimal(n)|) + Decimal(n) else Decimal(n)
  }

  /** Reading back the decimal text gives the number: Decimal is injective. */
  lemma {:induction false} DecimalValue(n: nat)
    ensures DigitsValue(Decimal(n)) == n
    decreases n
  {
    if n >= 10 {
      var s := Decimal(n);
      assert s[..|s| - 1] == Decimal(n / 10);
      DecimalValue(n / 10);
    }
  }

  lemma DecimalInjective(m: nat, n: nat)
    requires m != n
    ensures Decimal(m) != Decimal(n)
  {
    DecimalValue(m);
    DecimalValue(n);
  }

  lemma {:induction false} LeadingZerosValue(k: nat, s: string)
    requires AllDigits(s)
    ensures DigitsValue(Zeros(k) + s) == DigitsValue(s)
    decreases |s|
  {
    if s == [] {
      assert Zeros(k) + s == Zeros(k);
      ZerosValue(k);
    } else {
      var t := Zeros(k) + s;
      assert t[..|t| - 1] == Zeros(k) + s[..|s| - 1];
      LeadingZerosValue(k, s[..|s| - 1]);
    }
  }

  lemma {:induction false} ZerosValue(k: nat)
    ensures DigitsValue(Zeros(k)) == 0
  {
    if k > 0 {
      var z := Zeros(k);
      assert z[..|z| - 1] == Zeros(k - 1);
      ZerosValue(k - 1);
    }
  }

  /** Zero padding does not change the number the text denotes. */
  lemma ZeroPadValue(n: nat, width: nat)
    ensures DigitsValue(ZeroPad(n, width)) == n
  {
    var d := Decimal(n);
    DecimalValue(n);
    if |d| < width {
      assert ZeroPad(n, width) == Zeros(width - |d|) + d;
      LeadingZerosValue(width - |d|, d);
    } else {
      assert ZeroPad(n, width) == d;
    }
  }

  /** Different numbers padded to the same width give different texts. */
  lemma ZeroPadInjective(m: nat, n: nat, width: nat)
    requires m != n
    ensures ZeroPad(m, width) != ZeroPad(n, width)
  {
    ZeroPadValue(m, width);
    ZeroPadValue(n, width);
  }

  /** A common prefix keeps different texts different. */
  lemma PrefixInjective(p: string, a: string, b: string)
    requires a != b
    ensures p + a != p + b
  {
    assert (p + a)[|p|..] == a;
    assert (p + b)[|p|..] == b;
  }

  /** Numbers from 1000 to 9999 take exactly four digits, so `:04d` adds no zeros. */
  lemma FourDigits(n: nat)
    requires 1000 <= n < 10000
    ensures |Decimal(n)| == 4 && ZeroPad(n, 4) == Decimal(n)
  {
    assert Decimal(n) == Decimal(n / 10) + [DigitChar(n % 10)];
    assert Decimal(n / 10) == Decimal(n / 100) + [DigitChar(n / 10 % 10)];
    assert Decimal(n / 100) == Decimal(n / 1000) + [DigitChar(n / 100 % 10)];
  }

  /** Numbers below 10000 take at most four digits. */
  lemma ShortDecimal(n: nat)
    requires n < 10000
    ensures |Decimal(n)| <= 4
  {
    if n >= 10 {
      assert Decimal(n) == Decimal(n / 10) + [DigitChar(n % 10)];
      if n >= 100 {
        assert Decimal(n / 10) == Decimal(n / 100) + [DigitChar(n / 10 % 10)];
        if n >= 1000 {
          assert Decimal(n / 100) == Decimal(n / 1000) + [DigitChar(n / 100 % 10)];
        }
      }
    }
  }

  /** `[f(0), ..., f(n - 1)]`. */
  function Tabulate<T>(f: nat -> T, n: nat): (r: seq<T>)
    ensures |r| == n
  {
    if n == 0 then [] else Tabulate(f, n - 1) + [f(n - 1)]
  }

  /** The `i`-th element of the table is `f(i)`. */
  lemma {:induction false} TabulateAt<T>(f: nat -> T, n: nat, i: nat)
    requires i < n
    ensures Tabulate(f, n)[i] == f(i)
  {
    if i < n - 1 {
      TabulateAt(f, n - 1, i);
    }
  }

  /** The images under `f` of the elements of `xs` from position `k` on,
      concatenated in order. */
  function FlatFrom<T, U>(f: T -> seq<U>, xs: seq<T>, k: nat): seq<U>
    requires k <= |xs|
    decreases |xs| - k
  {
    if k == |xs| then [] else f(xs[k]) + FlatFrom(f, xs, k + 1)
  }

  function Flat<T, U>(f: T -> seq<U>, xs: seq<T>): seq<U>
  {
    FlatFrom(f, xs, 0)
  }

  lemma {:induction false} FlatShift<T, U>(f: T -> seq<U>, a: seq<T>, b: seq<T>, j: nat)
    requires j <= |b|
    ensures FlatFrom(f, a + b, |a| + j) == FlatFrom(f, b, j)
    decreases |b| - j
  {
    if j < |b| {
      assert (a + b)[|a| + j] == b[j];
      FlatShift(f, a, b, j + 1);
      assert FlatFrom(f, a + b, |a| + j) == f(b[j]) + FlatFrom(f, a + b, |a| + j + 1);
    }
  }

  lemma {:induction false} FlatFromAppend<T, U>(f: T -> seq<U>, a: seq<T>, b: seq<T>, k: nat)
    requires k <= |a|
    ensures FlatFrom(f, a + b, k) == FlatFrom(f, a, k) + Flat(f, b)
    decreases |a| - k
  {
    if k == |a| {
      FlatShift(f, a, b, 0);
    } else {
      assert (a + b)[k] == a[k];
      FlatFromAppend(f, a, b, k + 1);
      assert FlatFrom(f, a + b, k) == f(a[k]) + FlatFrom(f, a + b, k + 1);
      assert FlatFrom(f, a, k) == f(a[k]) + FlatFrom(f, a, k + 1);
    }
  }

  /** Flattening distributes over concatenation. */
  lemma FlatAppend<T, U>(f: T -> seq<U>, a: seq<T>, b: seq<T>)
    ensures Flat(f, a + b) == Flat(f, a) + Flat(f, b)
  {
    FlatFromAppend(f, a, b, 0);
  }

  lemma FlatFromLast<T, U>(f: T -> seq<U>, xs: seq<T>)
    requires |xs| > 0
    ensures FlatFrom(f, xs, |xs| - 1) == f(xs[|xs| - 1])
  {
  }

  lemma Flat4<T, U>(f: T -> seq<U>, xs: seq<T>)
    requires |xs| == 4
    ensures Flat(f, xs) == f(xs[0]) + (f(xs[1]) + (f(xs[2]) + f(xs[3])))
  {
    assert FlatFrom(f, xs, 3) == f(xs[3]) + FlatFrom(f, xs, 4);
    assert FlatFrom(f, xs, 1) == f(xs[1]) + FlatFrom(f, xs, 2);
  }

  lemma Flat5<T, U>(f: T -> seq<U>, xs: seq<T>)
    requires |xs| == 5
    ensures Flat(f, xs) == f(xs[0]) + (f(xs[1]) + (f(xs[2]) + (f(xs[3]) + f(xs[4]))))
  {
    assert FlatFrom(f, xs, 4) == f(xs[4]) + FlatFrom(f, xs, 5);
    assert FlatFrom(f, xs, 2) == f(xs[2]) + FlatFrom(f, xs, 3);
    assert FlatFrom(f, xs, 1) == f(xs[1]) + FlatFrom(f, xs, 2);
  }

  lemma Flat6<T, U>(f: T -> seq<U>, xs: seq<T>)
    requires |xs| == 6
    ensures Flat(f, xs) == f(xs[0]) + (f(xs[1]) + (f(xs[2]) + (f(xs[3]) + (f(xs[4]) + f(xs[5])))))
  {
    assert FlatFrom(f, xs, 5) == f(xs[5]) + FlatFrom(f, xs, 6);
    assert FlatFrom(f, xs, 3) == f(xs[3]) + FlatFrom(f, xs, 4);
    assert FlatFrom(f, xs, 1) == f(xs[1]) + FlatFrom(f, xs, 2);
  }

  /** `h + m + f` starts with `h` and ends with `f`. */
  lemma FrameSlices<T>(h: seq<T>, m: seq<T>, f: seq<T>)
    ensures var x := h + m + f;
      |x| == |h| + |m| + |f| && x[..|h|] == h && x[|x| - |f|..] == f
  {
    var x := h + m + f;
    assert x[..|h|] == h by {
      assert forall k :: 0 <= k < |h| ==> x[k] == h[k];
    }
    assert x[|x| - |f|..] == f by {
      assert forall k :: 0 <= k < |f| ==> x[|x| - |f| + k] == f[k];
    }
  }

  /** The concatenation of a sequence of strings, in order. */
  function Concat(ss: seq<string>): string
    decreases |ss|
  {
    if ss == [] then "" else ss[0] + Concat(ss[1..])
  }

  lemma {:induction false} ConcatAppend(a: seq<string>, b: seq<string>)
    ensures Concat(a + b) == Concat(a) + Concat(b)
    decreases |a|
  {
    if a == [] {
      assert a + b == b;
    } else {
      assert (a + b)[1..] == a[1..] + b;
      ConcatAppend(a[1..], b);
    }
  }

  /** Writing lines one after another onto `p` leaves `p` followed by their
      concatenation; one lemma per segment length the generators use. */
  lemma Lines1(p: string, a: string)
    ensures p + a == p + Concat([a])
  {
    assert [a][1..] == [];
    assert a + "" == a;
  }

  lemma Lines2(p: string, a: string, b: string)
    ensures p + a + b == p + Concat([a, b])
  {
    assert [a, b][1..] == [b];
    Lines1("", b);
    assert "" + b == b;
    assert p + a + b == p + (a + b);
  }

  lemma Lines3(p: string, a: string, b: string, c: string)
    ensures p + a + b + c == p + Concat([a, b, c])
  {
    assert [a, b, c][1..] == [b, c];
    Lines2("", b, c);
    assert "" + b + c == b + c;
    assert p + a + b + c == p + (a + (b + c));
  }

  lemma Lines4(p: string, a: string, b: string, c: string, d: string)
    ensures p + a + b + c + d == p + Concat([a, b, c, d])
  {
    assert [a, b, c, d][1..] == [b, c, d];
    Lines3("", b, c, d);
    assert "" + b + c + d == b + c + d;
    assert p + a + b + c + d == p + (a + (b + c + d));
  }

  lemma Lines5(p: string, a: string, b: string, c: string, d: string, e: string)
    ensures p + a + b + c + d + e == p + Concat([a, b, c, d, e])
  {
    assert [a, b, c, d, e][1..] == [b, c, d, e];
    Lines4("", b, c, d, e);
    assert "" + b + c + d + e == b + c + d + e;
    assert p + a + b + c + d + e == p + (a + (b + c + d + e));
  }

  lemma Lines6(p: string, a: string, b: string, c: string, d: string, e: string, f: string)
    ensures p + a + b + c + d + e + f == p + Concat([a, b, c, d, e, f])
  {
    assert [a, b, c, d, e, f][1..] == [b, c, d, e, f];
    Lines5("", b, c, d, e, f);
    assert "" + b + c + d + e + f == b + c + d + e + f;
    assert p + a + b + c + d + e + f == p + (a + (b + c + d + e + f));
  }

  /** The characters Python's `str.isspace` accepts, which `str.strip()`
      with no argument removes. */
  const PyWhitespace: set<char> := {
    '\t', '\n', '\U{000B}', '\U{000C}', '\r', '\U{001C}', '\U{001D}', '\U{001E}', '\U{001F}', ' ',
    '\U{0085}', '\U{00A0}', '\U{1680}', '\U{2000}', '\U{2001}', '\U{2002}', '\U{2003}', '\U{2004}', '\U{2005}',
    '\U{2006}', '\U{2007}', '\U{2008}', '\U{2009}', '\U{200A}', '\U{2028}', '\U{2029}', '\U{202F}', '\U{205F}', '\U{3000}'}

  /** How many leading characters of `s` are in `cs`. */
  function Lead(s: string, cs: set<char>): (n: nat)
    ensures n <= |s|
    ensures forall k :: 0 <= k < n ==> s[k] in cs
    ensures n < |s| ==> s[n] !in cs
    decreases |s|
  {
    if s != [] && s[0] in cs then 1 + Lead(s[1..], cs) else 0
  }

  /** How many trailing characters of `s` are in `cs`. */
  function Trail(s: string, cs: set<char>): (n: nat)
    ensures n <= |s|
    ensures forall k :: |s| - n <= k < |s| ==> s[k] in cs
    ensures n < |s| ==> s[|s| - 1 - n] !in cs
    decreases |s|
  {
    if s != [] && s[|s| - 1] in cs then 1 + Trail(s[..|s| - 1], cs) else 0
  }

  /** `s.strip(chars)`: drops every leading and every trailing character that
      is in the set `cs` (not a prefix or suffix string). */
  function Strip(s: string, cs: set<char>): string
  {
    var i := Lead(s, cs);
    s[i..|s| - Trail(s[i..], cs)]
  }

  /** The stripped text is a slice of the input; everything cut off is in
      `cs`; what remains neither starts nor ends with a character of `cs`. */
  lemma StripProperties(s: string, cs: set<char>)
    ensures exists i, j ::
      && 0 <= i <= j <= |s| && Strip(s, cs) == s[i..j]
      && (forall k :: 0 <= k < i ==> s[k] in cs)
      && (forall k :: j <= k < |s| ==> s[k] in cs)
    ensures var r := Strip(s, cs); r != [] ==> r[0] !in cs && r[|r| - 1] !in cs
  {
    var i := Lead(s, cs);
    var t := Trail(s[i..], cs);
    var j := |s| - t;
    assert Strip(s, cs) == s[i..j];
    forall k | j <= k < |s|
      ensures s[k] in cs
    {
      assert s[k] == s[i..][k - i];
    }
    var r := Strip(s, cs);
    if r != [] {
      assert r[0] == s[i];
      assert r[|r| - 1] == s[i..][|s[i..]| - 1 - t];
    }
  }

  /** A text that neither starts nor ends with a character of `cs` is left
      alone by stripping. */
  lemma StripNothing(s: string, cs: set<char>)
    requires s != [] ==> s[0] !in cs && s[|s| - 1] !in cs
    ensures Strip(s, cs) == s
  {
    if s != [] {
      assert Lead(s, cs) == 0;
      assert s[0..] == s;
      assert Trail(s, cs) == 0;
    }
  }

  /** Stripping twice with the same set strips nothing more. */
  lemma StripIdempotent(s: string, cs: set<char>)
    ensures Strip(Strip(s, cs), cs) == Strip(s, cs)
  {
    StripProperties(s, cs);
    StripNothing(Strip(s, cs), cs);
  }

  /** The stripped text when the characters kept are known to run from `i`
      up to `j`. */
  lemma StripExact(s: string, cs: set<char>, i: nat, j: nat)
    requires i < j <= |s|
    requires forall k :: 0 <= k < i ==> s[k] in cs
    requires forall k :: j <= k < |s| ==> s[k] in cs
    requires s[i] !in cs && s[j - 1] !in cs
    ensures Strip(s, cs) == s[i..j]
  {
    var n := Lead(s, cs);
    assert n == i;
    var t := s[i..];
    var m := Trail(t, cs);
    assert t[|t| - 1 - (|s| - j)] == s[j - 1];
    forall k | |t| - (|s| - j) <= k < |t|
      ensures t[k] in cs
    {
      assert t[k] == s[i + k];
    }
    assert m == |s| - j;
  }

  /** Stripping characters of `cs` from `p + t + q` leaves `t` when `p` and
      `q` consist of such characters and `t` neither starts nor ends with one. */
  lemma StripFramed(p: string, t: string, q: string, cs: set<char>)
    requires forall k :: 0 <= k < |p| ==> p[k] in cs
    requires forall k :: 0 <= k < |q| ==> q[k] in cs
    requires t != [] && t[0] !in cs && t[|t| - 1] !in cs
    ensures Strip(p + t + q, cs) == t
  {
    var s := p + t + q;
    assert forall k :: 0 <= k < |p| ==> s[k] == p[k];
    assert forall k :: |p| + |t| <= k < |s| ==> s[k] == q[k - |p| - |t|];
    assert s[|p|] == t[0] && s[|p| + |t| - 1] == t[|t| - 1];
    assert s[|p|..|p| + |t|] == t;
    StripExact(s, cs, |p|, |p| + |t|);
  }
}
