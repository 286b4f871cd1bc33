/**
 * The string operations of Python's `str` that the framework relies on,
 * restricted to what it uses: one-character separators for `count`,
 * `split` and `replace`, ASCII `upper` and `strip`, substring search,
 * prefix tests and decimal rendering of lengths and status codes.
 */
module Text {
  import opened Wrappers

  // ---------------------------------------------------------------------
  // Counting and searching
  // ---------------------------------------------------------------------

  /** `s.count(c)` for a one-character `c`. */
  function CountChar(s: string, c: char): (n: nat)
    ensures n <= |s|
    ensures n == 0 <==> c !in s
  {
    if s == [] then 0 else (if s[0] == c then 1 else 0) + CountChar(s[1..], c)
  }

  lemma {:induction false} CountCharConcat(a: string, b: string, c: char)
    ensures CountChar(a + b, c) == CountChar(a, c) + CountChar(b, c)
  {
    if a == [] {
      assert a + b == b;
    } else {
      assert (a + b)[1..] == a[1..] + b;
      CountCharConcat(a[1..], b, c);
    }
  }

  /** The position of the first `c` in `s`. */
  function IndexOf(s: string, c: char): (i: nat)
    requires c in s
    ensures i < |s| && s[i] == c && c !in s[..i]
  {
    if s[0] == c then 0
    else
      var j := IndexOf(s[1..], c);
      assert s[..j + 1] == [s[0]] + s[1..][..j];
      j + 1
  }

  /** Splitting `s` around the first `c`: the piece before it has no `c` and one `c` fewer remains after it. */
  lemma CountAroundFirst(s: string, c: char)
    requires c in s
    ensures var i := IndexOf(s, c); CountChar(s[i + 1..], c) == CountChar(s, c) - 1
  {
    var i := IndexOf(s, c);
    assert s == s[..i] + ([s[i]] + s[i + 1..]);
    CountCharConcat(s[..i], [s[i]] + s[i + 1..], c);
    CountCharConcat([s[i]], s[i + 1..], c);
  }

  /** `s.split(sep, n)`: at most `n` splits, leftmost first, the rest kept whole in the last piece. */
  function SplitN(s: string, sep: char, n: nat): (parts: seq<string>)
    ensures SplitsAs(s, sep, n, parts)
    decreases n
  {
    if n == 0 || sep !in s then [s]
    else
      var i := IndexOf(s, sep);
      var a, b := s[..i], s[i + 1..];
      assert s == a + [sep] + b;
      var tail := SplitN(b, sep, n - 1);
      SplitFront(a, sep, b, n, tail);
      [a] + tail
  }

  /**
   * What `SplitN(s, sep, n)` promises of its pieces: one more than the
   * splits made, no separator in any but the last, none in the last either
   * once every separator was split on, and joined they give `s` back.
   */
  ghost predicate SplitsAs(s: string, sep: char, n: nat, parts: seq<string>) {
    |parts| == Min(n, CountChar(s, sep)) + 1
    && (forall k :: 0 <= k < |parts| - 1 ==> sep !in parts[k])
    && (n >= CountChar(s, sep) ==> sep !in parts[|parts| - 1])
    && Join(parts, sep) == s
  }

  /** Separator-free text in front of pieces that split what follows its separator splits the whole with one split more. */
  lemma SplitFront(a: string, sep: char, b: string, n: nat, tail: seq<string>)
    requires sep !in a && n > 0
    requires SplitsAs(b, sep, n - 1, tail)
    ensures SplitsAs(a + [sep] + b, sep, n, [a] + tail)
  {
    CountFront(a, sep, b);
    FreeFront(a, sep, tail);
    assert Join([a] + tail, sep) == a + [sep] + Join(tail, sep) by {
      assert ([a] + tail)[1..] == tail;
    }
  }

  lemma CountFront(a: string, sep: char, b: string)
    requires sep !in a
    ensures CountChar(a + [sep] + b, sep) == CountChar(b, sep) + 1
  {
    CountCharConcat(a, [sep] + b, sep);
    CountCharConcat([sep], b, sep);
    assert a + [sep] + b == a + ([sep] + b);
  }

  lemma FreeFront(a: string, sep: char, tail: seq<string>)
    requires sep !in a && tail != []
    requires forall k :: 0 <= k < |tail| - 1 ==> sep !in tail[k]
    ensures forall k :: 0 <= k < |tail| ==> sep !in ([a] + tail)[k]
    ensures ([a] + tail)[|tail|] == tail[|tail| - 1]
  {
    forall k | 1 <= k < |tail| ensures ([a] + tail)[k] == tail[k - 1] {
    }
  }

  /** Splitting text whose first separator follows the separator-free `a`. */
  lemma SplitNCons(a: string, sep: char, b: string, n: nat)
    requires sep !in a && n > 0
    ensures SplitN(a + [sep] + b, sep, n) == [a] + SplitN(b, sep, n - 1)
    ensures CountChar(a + [sep] + b, sep) == CountChar(b, sep) + 1
  {
    var s := a + [sep] + b;
    CountCharConcat(a, [sep] + b, sep);
    CountCharConcat([sep], b, sep);
    assert a + [sep] + b == a + ([sep] + b);
    var i := IndexOf(s, sep);
    assert s[|a|] == sep;
    assert forall k :: 0 <= k < |a| ==> s[k] == a[k];
    assert i == |a|;
    assert s[..i] == a && s[i + 1..] == b;
  }

  /** `s.split(sep)`: every separator splits. */
  function Split(s: string, sep: char): (parts: seq<string>)
    ensures |parts| == CountChar(s, sep) + 1
    ensures forall k :: 0 <= k < |parts| ==> sep !in parts[k]
  {
    SplitN(s, sep, CountChar(s, sep))
  }

  /** `sep.join(parts)`. */
  function Join(parts: seq<string>, sep: char): string
    requires |parts| >= 1
  {
    if |parts| == 1 then parts[0] else parts[0] + [sep] + Join(parts[1..], sep)
  }

  lemma JoinCons(parts: seq<string>, sep: char)
    requires |parts| >= 2
    ensures Join(parts, sep) == parts[0] + [sep] + Join(parts[1..], sep)
  {
  }

  /** `s.startswith(p)`. */
  predicate StartsWith(s: string, p: string) {
    |p| <= |s| && s[..|p|] == p
  }

  /** `pat` occurs in `s` at position `j`. */
  predicate OccursAt<T(==)>(s: seq<T>, pat: seq<T>, j: nat) {
    j + |pat| <= |s| && s[j..j + |pat|] == pat
  }

  /** `s.find(pat, i)` as an option: the first position from `i` on where `pat` occurs. */
  function FindFrom<T(==)>(s: seq<T>, pat: seq<T>, i: nat): (r: Option<nat>)
    requires i <= |s|
    ensures r.Some? ==> i <= r.value && OccursAt(s, pat, r.value)
    ensures r.Some? ==> forall j :: i <= j < r.value ==> !OccursAt(s, pat, j)
    ensures r.None? ==> forall j :: i <= j <= |s| ==> !OccursAt(s, pat, j)
    decreases |s| - i
  {
    if i + |pat| > |s| then None
    else if OccursAt(s, pat, i) then Some(i)
    else FindFrom(s, pat, i + 1)
  }

  /** `s.find(pat)` as an option: the first position where `pat` occurs. */
  function Find<T(==)>(s: seq<T>, pat: seq<T>): Option<nat> {
    FindFrom(s, pat, 0)
  }

  /** `pat in s` for strings and byte strings. */
  predicate Contains<T(==)>(s: seq<T>, pat: seq<T>) {
    Find(s, pat).Some?
  }

  /** `s.split(pat, 1)` when `pat` occurs in `s`: the part before its first occurrence and the part after it. */
  function SplitFirst<T(==)>(s: seq<T>, pat: seq<T>): (halves: (seq<T>, seq<T>))
    requires Contains(s, pat)
    ensures s == halves.0 + pat + halves.1
    ensures |halves.0| == Find(s, pat).value
  {
    var i := Find(s, pat).value;
    assert s == s[..i] + s[i..i + |pat|] + s[i + |pat|..];
    (s[..i], s[i + |pat|..])
  }

  /** When `x` lacks the first element of `sep`, the first `sep` in `x + sep + y` is the one between the two parts. */
  lemma FindAfterFree<T>(x: seq<T>, sep: seq<T>, y: seq<T>)
    requires |sep| >= 1 && sep[0] !in x
    ensures Find(x + sep + y, sep) == Some(|x|)
  {
    var s := x + sep + y;
    assert s[|x|..|x| + |sep|] == sep;
    assert OccursAt(s, sep, |x|);
    forall j | 0 <= j < |x|
      ensures !OccursAt(s, sep, j)
    {
      assert s[j] == x[j];
    }
  }

  /** So splitting `x + sep + y` on its first `sep` gives `x` and `y` back. */
  lemma SplitFirstAfterFree<T>(x: seq<T>, sep: seq<T>, y: seq<T>)
    requires |sep| >= 1 && sep[0] !in x
    ensures Contains(x + sep + y, sep) && SplitFirst(x + sep + y, sep) == (x, y)
  {
    FindAfterFree(x, sep, y);
    var s := x + sep + y;
    var halves := SplitFirst(s, sep);
    assert halves.0 == s[..|x|] == x;
    assert halves.1 == s[|x| + |sep|..] == y;
  }

  // ---------------------------------------------------------------------
  // Character mapping: replace, upper, strip
  // ---------------------------------------------------------------------

  /** `s.replace(c, t)` for a one-character `c`. */
  function ReplaceChar(s: string, c: char, t: string): (r: string)
    ensures c !in t ==> c !in r
    ensures forall d :: d in r ==> d in s || d in t
  {
    if s == [] then [] else (if s[0] == c then t else [s[0]]) + ReplaceChar(s[1..], c, t)
  }

  lemma {:induction false} ReplaceCharConcat(a: string, b: string, c: char, t: string)
    ensures ReplaceChar(a + b, c, t) == ReplaceChar(a, c, t) + ReplaceChar(b, c, t)
  {
    if a == [] {
      assert a + b == b;
    } else {
      assert (a + b)[1..] == a[1..] + b;
      ReplaceCharConcat(a[1..], b, c, t);
    }
  }

  function UpperChar(c: char): char {
    if 'a' <= c <= 'z' then (c as int - 32) as char else c
  }

  /** `s.upper()` on ASCII letters; other characters are kept. */
  function AsciiUpper(s: string): (r: string)
    ensures |r| == |s|
    ensures forall k :: 0 <= k < |s| ==> r[k] == UpperChar(s[k])
  {
    seq(|s|, k requires 0 <= k < |s| => UpperChar(s[k]))
  }

  function LowerChar(c: char): char {
    if 'A' <= c <= 'Z' then (c as int + 32) as char else c
  }

  /** `s.lower()` on ASCII letters; other characters are kept. */
  function AsciiLower(s: string): (r: string)
    ensures |r| == |s|
    ensures forall k :: 0 <= k < |s| ==> r[k] == LowerChar(s[k])
  {
    seq(|s|, k requires 0 <= k < |s| => LowerChar(s[k]))
  }

  /** Upper-casing twice is upper-casing once. */
  lemma AsciiUpperIdempotent(s: string)
    ensures AsciiUpper(AsciiUpper(s)) == AsciiUpper(s)
  {
  }

  /** The characters `str.isspace()` accepts in the ASCII range. */
  predicate IsSpace(c: char) {
    var n := c as int;
    n == 32 || 9 <= n <= 13 || 28 <= n <= 31
  }

  function TrimLeft(s: string): (r: string)
    ensures |r| <= |s| && r == s[|s| - |r|..]
    ensures r == [] || !IsSpace(r[0])
  {
    if |s| > 0 && IsSpace(s[0]) then TrimLeft(s[1..]) else s
  }

  function TrimRight(s: string): (r: string)
    ensures |r| <= |s| && r == s[..|r|]
    ensures r == [] || !IsSpace(r[|r| - 1])
  {
    if |s| > 0 && IsSpace(s[|s| - 1]) then TrimRight(s[..|s| - 1]) else s
  }

  /** `s.strip()` with ASCII whitespace. */
  function Strip(s: string): string {
    TrimRight(TrimLeft(s))
  }

  // ---------------------------------------------------------------------
  // Decimal numbers
  // ---------------------------------------------------------------------

  function DigitChar(d: nat): char
    requires d < 10
  {
    ('0' as int + d) as char
  }

  predicate IsDigit(c: char) {
    '0' <= c <= '9'
  }

  /** `str(n)` for a natural number. */
  function DecimalString(n: nat): (r: string)
    ensures |r| >= 1
    ensures forall k :: 0 <= k < |r| ==> IsDigit(r[k])
  {
    if n < 10 then [DigitChar(n)] else DecimalString(n / 10) + [DigitChar(n % 10)]
  }

  /** `int(s)` for a string of decimal digits. */
  function ParseDecimal(s: string): nat
    requires forall k :: 0 <= k < |s| ==> IsDigit(s[k])
  {
    if s == [] then 0
    else
      assert IsDigit(s[|s| - 1]);
      ParseDecimal(s[..|s| - 1]) * 10 + (s[|s| - 1] as int - '0' as int)
  }

  /** Reading back the decimal rendering of `n` gives `n`. */
  lemma {:induction false} ParseDecimalString(n: nat)
    ensures ParseDecimal(DecimalString(n)) == n
  {
    var r := DecimalString(n);
    if n >= 10 {
      ParseDecimalString(n / 10);
      assert r[..|r| - 1] == DecimalString(n / 10);
    }
  }
}
