/** The Python string operations the wire codec relies on: `split`, `join`,
    `strip`, `rstrip`, `startswith`, `upper`, `count`, `split('=', 1)` and
    `unicode(n)` of a count, each stated on code-point strings. */
module Text {
  import opened Base

  /** `s.startswith(prefix)`, case-sensitive. */
  predicate StartsWith(s: string, prefix: string)
  {
    |prefix| <= |s| && s[..|prefix|] == prefix
  }

  /** `s.rstrip(c)` for a single character `c`. */
  function RStrip(s: string, c: char): (r: string)
    ensures |r| <= |s| && r == s[..|r|]
    ensures r == [] || r[|r| - 1] != c
    ensures forall i :: |r| <= i < |s| ==> s[i] == c
  {
    if s != [] && s[|s| - 1] == c then RStrip(s[..|s| - 1], c) else s
  }

  /** Python 2's `unicode.isspace()`: the code points `strip()` removes. */
  predicate IsSpace(c: char)
  {
    var n := c as int;
    || 0x09 <= n <= 0x0D || 0x1C <= n <= 0x20
    || n == 0x85 || n == 0xA0 || n == 0x1680 || n == 0x180E
    || 0x2000 <= n <= 0x200A
    || n == 0x2028 || n == 0x2029 || n == 0x202F || n == 0x205F || n == 0x3000
  }

  function LStripSpace(s: string): (r: string)
    ensures |r| <= |s| && r == s[|s| - |r|..]
    ensures r == [] || !IsSpace(r[0])
  {
    if s != [] && IsSpace(s[0]) then LStripSpace(s[1..]) else s
  }

  function RStripSpace(s: string): (r: string)
    ensures |r| <= |s| && r == s[..|r|]
    ensures r == [] || !IsSpace(r[|r| - 1])
  {
    if s != [] && IsSpace(s[|s| - 1]) then RStripSpace(s[..|s| - 1]) else s
  }

  /** `s.strip()` */
  function Strip(s: string): string
  {
    RStripSpace(LStripSpace(s))
  }

  /** A string that neither starts nor ends with whitespace is its own strip. */
  lemma StripUnchanged(s: string)
    requires s != [] && !IsSpace(s[0]) && !IsSpace(s[|s| - 1])
    ensures Strip(s) == s
  {
  }

  /** No character of `s` occurs in `chars`. */
  predicate Avoids(s: string, chars: string)
  {
    forall i :: 0 <= i < |s| ==> s[i] !in chars
  }

  /** `s.split(sep)`: the pieces between the non-overlapping occurrences of
      `sep`, found from the left. */
  function Split(s: string, sep: string): (r: seq<string>)
    requires sep != []
    ensures |r| >= 1
    decreases |s|
  {
    if |s| < |sep| then [s]
    else if s[..|sep|] == sep then [[]] + Split(s[|sep|..], sep)
    else
      var rest := Split(s[1..], sep);
      [[s[0]] + rest[0]] + rest[1..]
  }

  /** `sep.join(parts)` */
  function Join(parts: seq<string>, sep: string): string
  {
    if |parts| == 0 then []
    else if |parts| == 1 then parts[0]
    else parts[0] + sep + Join(parts[1..], sep)
  }

  lemma Join3(a: string, b: string, c: string, sep: string)
    ensures Join([a, b, c], sep) == a + sep + b + sep + c
  {
    var parts := [a, b, c];
    assert parts[1..] == [b, c];
    assert Join([b, c], sep) == b + sep + c by {
      assert [b, c][1..] == [c];
    }
  }

  lemma {:induction false} SplitAvoiding(p: string, sep: string)
    requires sep != [] && Avoids(p, sep)
    ensures Split(p, sep) == [p]
    decreases |p|
  {
    if |p| >= |sep| {
      assert p[..|sep|][0] != sep[0];
      SplitAvoiding(p[1..], sep);
      assert [p[0]] + p[1..] == p;
    }
  }

  lemma {:induction false} SplitAfter(p: string, sep: string, t: string)
    requires sep != [] && Avoids(p, sep)
    ensures Split(p + sep + t, sep) == [p] + Split(t, sep)
    decreases |p|
  {
    var s := p + sep + t;
    if p == [] {
      assert s == sep + t && s[..|sep|] == sep && s[|sep|..] == t;
    } else {
      assert s[..|sep|][0] == p[0] != sep[0];
      assert s[1..] == p[1..] + sep + t;
      SplitAfter(p[1..], sep, t);
      assert [p[0]] + p[1..] == p;
    }
  }

  /** Splitting a join gives the parts back when no part holds a character
      of the separator. */
  lemma {:induction false} SplitJoin(parts: seq<string>, sep: string)
    requires sep != [] && parts != []
    requires forall i :: 0 <= i < |parts| ==> Avoids(parts[i], sep)
    ensures Split(Join(parts, sep), sep) == parts
  {
    if |parts| == 1 {
      SplitAvoiding(parts[0], sep);
    } else {
      SplitAfter(parts[0], sep, Join(parts[1..], sep));
      SplitJoin(parts[1..], sep);
    }
  }

  /** `s.count(c)` for one character. */
  function Count(s: string, c: char): nat
  {
    if s == [] then 0 else (if s[0] == c then 1 else 0) + Count(s[1..], c)
  }

  lemma {:induction false} CountAppend(a: string, b: string, c: char)
    ensures Count(a + b, c) == Count(a, c) + Count(b, c)
  {
    if a == [] {
      assert a + b == b;
    } else {
      assert (a + b)[0] == a[0] && (a + b)[1..] == a[1..] + b;
      CountAppend(a[1..], b, c);
    }
  }

  lemma {:induction false} CountAvoiding(s: string, c: char)
    requires Avoids(s, [c])
    ensures Count(s, c) == 0
  {
    if s != [] {
      assert s[0] != c;
      CountAvoiding(s[1..], c);
    }
  }

  /** Joining parts free of `c` with `c` puts exactly one `c` between
      consecutive parts. */
  lemma {:induction false} CountJoin(parts: seq<string>, c: char)
    requires parts != []
    requires forall i :: 0 <= i < |parts| ==> Avoids(parts[i], [c])
    ensures Count(Join(parts, [c]), c) == |parts| - 1
  {
    CountAvoiding(parts[0], c);
    if |parts| > 1 {
      CountJoin(parts[1..], c);
      CountAppend(parts[0] + [c], Join(parts[1..], [c]), c);
      CountAppend(parts[0], [c], c);
    }
  }

  /** Every character of `Join(parts, sep)` is a character of some part or
      of the separator. */
  lemma {:induction false} JoinChars(parts: seq<string>, sep: string, P: char -> bool)
    requires forall i, j :: 0 <= i < |parts| && 0 <= j < |parts[i]| ==> P(parts[i][j])
    requires forall j :: 0 <= j < |sep| ==> P(sep[j])
    ensures forall j :: 0 <= j < |Join(parts, sep)| ==> P(Join(parts, sep)[j])
  {
    if |parts| > 1 {
      JoinChars(parts[1..], sep, P);
      var rest := Join(parts[1..], sep);
      forall j | 0 <= j < |parts[0] + sep + rest|
        ensures P((parts[0] + sep + rest)[j])
      {
        if j < |parts[0]| {
        } else if j < |parts[0]| + |sep| {
          assert (parts[0] + sep + rest)[j] == sep[j - |parts[0]|];
        } else {
          assert (parts[0] + sep + rest)[j] == rest[j - |parts[0]| - |sep|];
        }
      }
    }
  }

  /** `s.split(c, 1)` when it yields two pieces: the text before the first
      `c` and everything after it; `None` when `c` does not occur. */
  function SplitFirst(s: string, c: char): (r: Option<(string, string)>)
    ensures r.None? <==> c !in s
    ensures r.Some? ==> s == r.value.0 + [c] + r.value.1 && c !in r.value.0
  {
    if s == [] then None
    else if s[0] == c then Some(([], s[1..]))
    else
      match SplitFirst(s[1..], c)
      case None => None
      case Some(pair) => Some(([s[0]] + pair.0, pair.1))
  }

  /** The first occurrence is found even when the rest holds more. */
  lemma {:induction false} SplitFirstOf(k: string, c: char, v: string)
    requires c !in k
    ensures SplitFirst(k + [c] + v, c) == Some((k, v))
  {
    var s := k + [c] + v;
    if k == [] {
      assert s[0] == c && s[1..] == v;
    } else {
      assert s[0] == k[0] != c;
      assert s[1..] == k[1..] + [c] + v;
      SplitFirstOf(k[1..], c, v);
      assert [k[0]] + k[1..] == k;
    }
  }

  function Digit(d: nat): (c: char)
    requires d < 10
    ensures '0' <= c <= '9'
  {
    ['0', '1', '2', '3', '4', '5', '6', '7', '8', '9'][d]
  }

  /** `unicode(n)` for a natural number: its decimal digits. */
  function NatToString(n: nat): (s: string)
    ensures s != []
    ensures forall i :: 0 <= i < |s| ==> '0' <= s[i] <= '9'
  {
    if n < 10 then [Digit(n)] else NatToString(n / 10) + [Digit(n % 10)]
  }

  predicate IsLowerAscii(c: char)
  {
    'a' <= c <= 'z'
  }

  /** `s.upper()` on ASCII text, such as a hexadecimal digest. */
  function UpperAscii(s: string): (r: string)
    ensures |r| == |s|
    ensures forall i :: 0 <= i < |r| ==> !IsLowerAscii(r[i])
    ensures forall i :: 0 <= i < |s| && !IsLowerAscii(s[i]) ==> r[i] == s[i]
  {
    if s == [] then []
    else
      var c := if IsLowerAscii(s[0]) then (s[0] as int - 32) as char else s[0];
      [c] + UpperAscii(s[1..])
  }
}
