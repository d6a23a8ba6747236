/**
  The Python string built-ins the script relies on, with their Python meaning:
  `str.split(c)` and `sep.join(parts)` for a one-character separator,
  `str.strip()`, `str(n)` for a non-negative integer, zero padding
  (`zfill(w)` and the `{n:0w}` format), and `re.sub(" +", " ", s)`.
*/
module Text {

  function Last<T>(xs: seq<T>): T
    requires |xs| > 0
  {
    xs[|xs| - 1]
  }

  // ---------------------------------------------------------------------------
  // split and join
  // ---------------------------------------------------------------------------

  /** `sep.join(parts)` */
  function Join(parts: seq<string>, sep: string): string
  {
    if |parts| == 0 then ""
    else if |parts| == 1 then parts[0]
    else parts[0] + sep + Join(parts[1..], sep)
  }

  /** `s.split(c)`: the fields between occurrences of `c`, from left to
      right (SplitJoin, SplitFields and SplitCount state what they are). */
  function Split(s: string, c: char): (fields: seq<string>)
    ensures |fields| >= 1
    decreases |s|
  {
    if |s| == 0 then [""]
    else
      var rest := Split(s[1..], c);
      if s[0] == c then [""] + rest
      else [[s[0]] + rest[0]] + rest[1..]
  }

  lemma JoinCons(first: string, parts: seq<string>, sep: string)
    ensures Join([first] + parts, sep) == if parts == [] then first else first + sep + Join(parts, sep)
  {
    if parts != [] {
      assert ([first] + parts)[1..] == parts;
    }
  }

  /** Joining the fields with the separator gives back the string. */
  lemma {:induction false} SplitJoin(s: string, c: char)
    ensures Join(Split(s, c), [c]) == s
    decreases |s|
  {
    if |s| > 0 {
      var t := s[1..];
      SplitJoin(t, c);
      var rest := Split(t, c);
      assert Join(rest, [c]) == t;
      if s[0] == c {
        assert Join(Split(s, c), [c]) == s by {
          assert Split(s, c) == [""] + rest;
          JoinCons("", rest, [c]);
          assert s == [c] + t;
        }
      } else {
        assert Join(Split(s, c), [c]) == s by {
          var r0, tail := rest[0], rest[1..];
          assert rest == [r0] + tail;
          JoinCons(r0, tail, [c]);
          assert Split(s, c) == [[s[0]] + r0] + tail;
          JoinCons([s[0]] + r0, tail, [c]);
          assert s == [s[0]] + t;
        }
      }
    }
  }

  /** No field contains the separator. */
  lemma {:induction false} SplitFields(s: string, c: char)
    ensures forall k :: 0 <= k < |Split(s, c)| ==> c !in Split(s, c)[k]
    decreases |s|
  {
    if |s| > 0 {
      SplitFields(s[1..], c);
    }
  }

  /** There is one field more than there are separators; in particular a
      single field exactly when the separator does not occur. */
  lemma {:induction false} SplitCount(s: string, c: char)
    ensures |Split(s, c)| == 1 + multiset(s)[c]
    ensures (|Split(s, c)| == 1) == (c !in s)
    decreases |s|
  {
    if |s| > 0 {
      SplitCount(s[1..], c);
      assert s == [s[0]] + s[1..];
      assert multiset(s) == multiset{s[0]} + multiset(s[1..]);
    }
  }

  /** A string without the separator is a single field. */
  lemma SplitNone(s: string, c: char)
    requires c !in s
    ensures Split(s, c) == [s]
  {
    SplitCount(s, c);
    SplitJoin(s, c);
  }

  /** Cutting at a separator that is the first one in the string. */
  lemma {:induction false} SplitAround(x: string, c: char, y: string)
    requires c !in x
    ensures Split(x + [c] + y, c) == [x] + Split(y, c)
    decreases |x|
  {
    var s := x + [c] + y;
    if |x| == 0 {
      assert s[1..] == y;
    } else {
      assert s[0] == x[0];
      assert s[1..] == x[1..] + [c] + y;
      SplitAround(x[1..], c, y);
      assert [x[0]] + x[1..] == x;
    }
  }

  /** The last field of a split is what follows the last separator. */
  lemma {:induction false} SplitLastAfter(x: string, c: char, y: string)
    requires c !in y
    ensures Last(Split(x + [c] + y, c)) == y
    decreases |x|
  {
    var s := x + [c] + y;
    if |x| == 0 {
      SplitAround(x, c, y);
      SplitNone(y, c);
    } else {
      var t := s[1..];
      assert t == x[1..] + [c] + y;
      SplitLastAfter(x[1..], c, y);
      var rest := Split(t, c);
      assert |rest| >= 2 by {
        assert c in t;
        SplitCount(t, c);
      }
      assert Last(Split(s, c)) == Last(rest) by {
        if s[0] == c {
          assert Split(s, c) == [""] + rest;
        } else {
          assert Split(s, c) == [[s[0]] + rest[0]] + rest[1..];
        }
      }
    }
  }

  lemma {:induction false} JoinLast(parts: seq<string>, sep: string)
    requires |parts| >= 2
    ensures Join(parts, sep) == Join(parts[..|parts| - 1], sep) + sep + Last(parts)
    decreases |parts|
  {
    if |parts| > 2 {
      var tail := parts[1..];
      JoinLast(tail, sep);
      assert parts[..|parts| - 1][1..] == tail[..|tail| - 1];
    }
  }

  lemma SplitLast(s: string, c: char)
    requires c in s
    ensures |Last(Split(s, c))| < |s|
    ensures s == s[..|s| - |Last(Split(s, c))| - 1] + [c] + Last(Split(s, c))
  {
    var fields := Split(s, c);
    SplitCount(s, c);
    SplitJoin(s, c);
    JoinLast(fields, [c]);
    CutBefore(Join(fields[..|fields| - 1], [c]), c, Last(fields), s);
  }

  lemma CutBefore(front: string, c: char, e: string, s: string)
    requires s == front + [c] + e
    ensures |e| < |s| && s == s[..|s| - |e| - 1] + [c] + e
  {
    assert s[..|s| - |e| - 1] == front;
  }

  // ---------------------------------------------------------------------------
  // strip
  // ---------------------------------------------------------------------------

  /** The characters Python's `str.isspace` (and so `str.strip()`) treats as
      whitespace. */
  predicate IsSpace(ch: char)
  {
    || ch == ' '
    || ('\t' <= ch <= '\r')
    || ('\U{1C}' <= ch <= '\U{1F}')
    || ch == '\U{85}' || ch == '\U{A0}' || ch == '\U{1680}'
    || ('\U{2000}' <= ch <= '\U{200A}')
    || ch == '\U{2028}' || ch == '\U{2029}' || ch == '\U{202F}'
    || ch == '\U{205F}' || ch == '\U{3000}'
  }

  /** `s.lstrip()`: drops the whitespace prefix and nothing else. */
  function StripLeft(s: string): (r: string)
    ensures |r| <= |s|
    ensures r == s[|s| - |r|..]
    ensures forall k :: 0 <= k < |s| - |r| ==> IsSpace(s[k])
    ensures r == [] || !IsSpace(r[0])
  {
    if |s| > 0 && IsSpace(s[0]) then StripLeft(s[1..]) else s
  }

  /** `s.rstrip()`: drops the whitespace suffix and nothing else. */
  function StripRight(s: string): (r: string)
    ensures |r| <= |s|
    ensures r == s[..|r|]
    ensures forall k :: |r| <= k < |s| ==> IsSpace(s[k])
    ensures r == [] || !IsSpace(r[|r| - 1])
  {
    if |s| > 0 && IsSpace(s[|s| - 1]) then StripRight(s[..|s| - 1]) else s
  }

  /** `s.strip()`: `s` with its whitespace prefix and suffix removed (what
      StripLeft and StripRight each remove is stated in their contracts); the
      result neither starts nor ends with whitespace. */
  function Strip(s: string): (r: string)
    ensures |r| <= |s|
    ensures r == [] || (!IsSpace(r[0]) && !IsSpace(r[|r| - 1]))
  {
    var l := StripLeft(s);
    var r := StripRight(l);
    assert r == [] || r[0] == l[0];
    r
  }

  lemma {:induction false} StripIdempotent(s: string)
    ensures Strip(Strip(s)) == Strip(s)
  {
    var r := Strip(s);
    if r != [] {
      assert StripLeft(r) == r;
      assert StripRight(r) == r;
    }
  }

  // ---------------------------------------------------------------------------
  // re.sub(" +", " ", s)
  // ---------------------------------------------------------------------------

  /** No two consecutive spaces. */
  predicate NoDoubleSpace(s: string)
  {
    forall k :: 0 <= k < |s| - 1 ==> !(s[k] == ' ' && s[k + 1] == ' ')
  }

  /** Drops a leading run of spaces (`' '` only). */
  function SkipSpaces(s: string): (r: string)
    ensures |r| <= |s|
    ensures r == s[|s| - |r|..]
    ensures forall k :: 0 <= k < |s| - |r| ==> s[k] == ' '
    ensures r == [] || r[0] != ' '
  {
    if |s| > 0 && s[0] == ' ' then SkipSpaces(s[1..]) else s
  }

  /** `re.sub(" +", " ", s)`: every maximal run of spaces becomes one space,
      scanning left to right. */
  function CollapseSpaces(s: string): (r: string)
    ensures |r| <= |s|
    ensures (r == []) == (s == [])
    ensures s != [] ==> r[0] == s[0]
    ensures NoDoubleSpace(r)
    decreases |s|
  {
    if |s| == 0 then ""
    else if s[0] != ' ' then [s[0]] + CollapseSpaces(s[1..])
    else
      var rest := SkipSpaces(s);
      assert rest == [] || rest[0] != s[0];
      [' '] + CollapseSpaces(rest)
  }

  /** The text without its spaces: what the collapse must keep intact. */
  function DropSpaces(s: string): string
  {
    if |s| == 0 then ""
    else if s[0] == ' ' then DropSpaces(s[1..])
    else [s[0]] + DropSpaces(s[1..])
  }

  lemma {:induction false} DropSpacesAppend(a: string, b: string)
    ensures DropSpaces(a + b) == DropSpaces(a) + DropSpaces(b)
    decreases |a|
  {
    if |a| == 0 {
      assert a + b == b;
    } else {
      assert (a + b)[1..] == a[1..] + b;
      DropSpacesAppend(a[1..], b);
    }
  }

  lemma {:induction false} DropSpacesSkip(s: string)
    ensures DropSpaces(SkipSpaces(s)) == DropSpaces(s)
    decreases |s|
  {
    if |s| > 0 && s[0] == ' ' {
      DropSpacesSkip(s[1..]);
    }
  }

  /** Collapsing keeps every non-space character, in order. */
  lemma {:induction false} CollapseKeepsText(s: string)
    ensures DropSpaces(CollapseSpaces(s)) == DropSpaces(s)
    decreases |s|
  {
    if |s| == 0 {
    } else if s[0] != ' ' {
      CollapseKeepsText(s[1..]);
      DropSpacesAppend([s[0]], CollapseSpaces(s[1..]));
    } else {
      var rest := SkipSpaces(s);
      assert rest == [] || rest[0] != s[0];
      CollapseKeepsText(rest);
      DropSpacesAppend([' '], CollapseSpaces(rest));
      DropSpacesSkip(s);
    }
  }

  /** A text without double spaces is left as it is. */
  lemma {:induction false} CollapseFixpoint(s: string)
    requires NoDoubleSpace(s)
    ensures CollapseSpaces(s) == s
    decreases |s|
  {
    if |s| == 0 {
    } else {
      assert NoDoubleSpace(s[1..]) by {
        forall k | 0 <= k < |s[1..]| - 1
          ensures !(s[1..][k] == ' ' && s[1..][k + 1] == ' ')
        {
          assert s[1..][k] == s[k + 1] && s[1..][k + 1] == s[k + 2];
        }
      }
      CollapseFixpoint(s[1..]);
      if s[0] == ' ' {
        assert |s| == 1 || s[1] != ' ';
        assert SkipSpaces(s[1..]) == s[1..];
        assert SkipSpaces(s) == s[1..];
      }
      assert s == [s[0]] + s[1..];
    }
  }

  /** A run of `k` spaces. */
  function Spaces(k: nat): string
  {
    seq(k, _ => ' ')
  }

  /** Skipping the leading spaces of a text that ends in a non-space
      character commutes with appending to it. */
  lemma {:induction false} SkipSpacesAppend(x: string, z: string)
    requires x != [] && x[|x| - 1] != ' '
    ensures SkipSpaces(x + z) == SkipSpaces(x) + z
    decreases |x|
  {
    if x[0] == ' ' {
      assert (x + z)[1..] == x[1..] + z;
      SkipSpacesAppend(x[1..], z);
    }
  }

  /** A run of spaces in front of a text that does not start with a space
      is skipped entirely. */
  lemma {:induction false} SkipSpacesRun(k: nat, y: string)
    requires y == [] || y[0] != ' '
    ensures SkipSpaces(Spaces(k) + y) == y
    decreases k
  {
    if k == 0 {
      assert Spaces(k) + y == y;
    } else {
      SkipSpacesPeel(k, y);
      SkipSpacesRun(k - 1, y);
    }
  }

  /** Skipping the spaces of a run of `k` is skipping those of a run of
      `k - 1`. */
  lemma SkipSpacesPeel(k: nat, y: string)
    requires k > 0
    ensures SkipSpaces(Spaces(k) + y) == SkipSpaces(Spaces(k - 1) + y)
  {
    SpacesCons(k, y);
    SkipSpacesCons(Spaces(k - 1) + y);
  }

  /** A run of `k` spaces is a space followed by a run of `k - 1`. */
  lemma SpacesCons(k: nat, y: string)
    requires k > 0
    ensures Spaces(k) + y == [' '] + (Spaces(k - 1) + y)
  {
  }

  /** Skipping spaces after one more leading space. */
  lemma SkipSpacesCons(t: string)
    ensures SkipSpaces([' '] + t) == SkipSpaces(t)
  {
    assert ([' '] + t)[1..] == t;
  }

  /** The collapse works piece by piece when the first piece does not end
      in a space. */
  lemma {:induction false} CollapseAppend(x: string, z: string)
    requires x == [] || x[|x| - 1] != ' '
    ensures CollapseSpaces(x + z) == CollapseSpaces(x) + CollapseSpaces(z)
    decreases |x|, 1
  {
    if x == [] {
      assert x + z == z;
    } else if x[0] != ' ' {
      CollapseAppendWord(x, z);
    } else {
      CollapseAppendRun(x, z);
    }
  }

  /** CollapseAppend when `x` starts with a non-space character. */
  lemma {:induction false} CollapseAppendWord(x: string, z: string)
    requires x != [] && x[0] != ' ' && x[|x| - 1] != ' '
    ensures CollapseSpaces(x + z) == CollapseSpaces(x) + CollapseSpaces(z)
    decreases |x|, 0
  {
    assert (x + z)[1..] == x[1..] + z;
    CollapseAppend(x[1..], z);
  }

  /** A text that starts with a space collapses to one space and the
      collapse of what follows its leading run. */
  lemma CollapseLead(s: string)
    requires s != [] && s[0] == ' '
    ensures CollapseSpaces(s) == [' '] + CollapseSpaces(SkipSpaces(s))
  {
  }

  /** CollapseAppend when `x` starts with a run of spaces. */
  lemma {:induction false} CollapseAppendRun(x: string, z: string)
    requires x != [] && x[0] == ' ' && x[|x| - 1] != ' '
    ensures CollapseSpaces(x + z) == CollapseSpaces(x) + CollapseSpaces(z)
    decreases |x|, 0
  {
    var rest := SkipSpaces(x);
    assert rest != [] && rest[|rest| - 1] == x[|x| - 1];
    CollapseLead(x + z);
    CollapseLead(x);
    SkipSpacesAppend(x, z);
    CollapseAppend(rest, z);
    AppendAssoc([' '], CollapseSpaces(rest), CollapseSpaces(z));
  }

  /** Concatenation is associative; stated on its own so that proofs about
      the collapse need not rediscover it. */
  lemma AppendAssoc(a: string, b: string, c: string)
    ensures a + (b + c) == a + b + c
  {
  }

  /** Every maximal run of spaces, inside the text or at either end of it,
      becomes exactly one space, and the pieces on either side collapse on
      their own. */
  lemma CollapseRun(x: string, k: nat, y: string)
    requires k >= 1
    requires x == [] || x[|x| - 1] != ' '
    requires y == [] || y[0] != ' '
    ensures CollapseSpaces(x + Spaces(k) + y) == CollapseSpaces(x) + " " + CollapseSpaces(y)
  {
    AppendAssoc(x, Spaces(k), y);
    CollapseAppend(x, Spaces(k) + y);
    CollapseLeadingRun(k, y);
    AppendAssoc(CollapseSpaces(x), " ", CollapseSpaces(y));
  }

  /** A leading run of spaces becomes one space. */
  lemma CollapseLeadingRun(k: nat, y: string)
    requires k >= 1
    requires y == [] || y[0] != ' '
    ensures CollapseSpaces(Spaces(k) + y) == " " + CollapseSpaces(y)
  {
    var run := Spaces(k) + y;
    assert run[0] == ' ';
    SkipSpacesRun(k, y);
    assert CollapseSpaces(run) == [' '] + CollapseSpaces(SkipSpaces(run));
  }

  /** Two words with `k` spaces between them become the words with one
      space between them: `"a  b"` becomes `"a b"`. */
  lemma CollapseBetweenWords(a: char, k: nat, b: char)
    requires a != ' ' && b != ' ' && k >= 1
    ensures CollapseSpaces([a] + Spaces(k) + [b]) == [a, ' ', b]
  {
    CollapseRun([a], k, [b]);
  }

  /** Collapsing twice is collapsing once. */
  lemma CollapseIdempotent(s: string)
    ensures CollapseSpaces(CollapseSpaces(s)) == CollapseSpaces(s)
  {
    CollapseFixpoint(CollapseSpaces(s));
  }

  // ---------------------------------------------------------------------------
  // str(n) for n >= 0, zero padding, and reading digits back
  // ---------------------------------------------------------------------------

  predicate IsDigit(ch: char)
  {
    '0' <= ch <= '9'
  }

  predicate AllDigits(s: string)
  {
    forall k :: 0 <= k < |s| ==> IsDigit(s[k])
  }

  function DigitChar(d: nat): (ch: char)
    requires d < 10
    ensures IsDigit(ch)
  {
    ('0' as int + d) as char
  }

  function DigitValue(ch: char): (d: nat)
    requires IsDigit(ch)
    ensures d < 10
  {
    ch as int - '0' as int
  }

  /** `str(n)`: decimal digits, most significant first, no leading zero. */
  function Decimal(n: nat): (r: string)
    ensures |r| >= 1
    ensures AllDigits(r)
    ensures |r| > 1 ==> r[0] != '0'
  {
    if n < 10 then [DigitChar(n)]
    else Decimal(n / 10) + [DigitChar(n % 10)]
  }

  /** The value of a digit string (leading zeros allowed). */
  function ParseDigits(s: string): nat
    requires AllDigits(s)
  {
    if |s| == 0 then 0
    else 10 * ParseDigits(s[..|s| - 1]) + DigitValue(s[|s| - 1])
  }

  function Pow10(k: nat): nat
  {
    if k == 0 then 1 else 10 * Pow10(k - 1)
  }

  /** Reading `str(n)` back gives `n`. */
  lemma {:induction false} DecimalRoundTrip(n: nat)
    ensures ParseDigits(Decimal(n)) == n
  {
    if n >= 10 {
      var d := Decimal(n);
      assert d[..|d| - 1] == Decimal(n / 10);
      DecimalRoundTrip(n / 10);
    }
  }

  /** `str(n)` has at most `k` digits when `n < 10^k`. */
  lemma {:induction false} DecimalLength(n: nat, k: nat)
    requires 1 <= k && n < Pow10(k)
    ensures |Decimal(n)| <= k
  {
    if n >= 10 {
      assert k >= 2;
      DecimalLength(n / 10, k - 1);
    }
  }

  /** `k` zero digits; none when `k` is not positive. */
  function Zeros(k: int): (r: string)
    ensures |r| == if k <= 0 then 0 else k
    ensures AllDigits(r)
  {
    if k <= 0 then "" else Zeros(k - 1) + "0"
  }

  /** `str(n).zfill(w)` (equivalently `f"{n:0w}"`) for `n >= 0`. */
  function Padded(n: nat, w: nat): (r: string)
    ensures AllDigits(r)
    ensures |r| == if |Decimal(n)| >= w then |Decimal(n)| else w
  {
    var d := Decimal(n);
    Zeros(w - |d|) + d
  }

  lemma {:induction false} ParseZeros(k: nat)
    ensures ParseDigits(Zeros(k)) == 0
  {
    if k > 0 {
      assert Zeros(k) == Zeros(k - 1) + "0";
      assert Zeros(k)[..k - 1] == Zeros(k - 1);
      ParseZeros(k - 1);
    }
  }

  lemma {:induction false} ParseLeadingZeros(k: nat, s: string)
    requires AllDigits(s)
    ensures ParseDigits(Zeros(k) + s) == ParseDigits(s)
    decreases |s|
  {
    if |s| == 0 {
      assert Zeros(k) + s == Zeros(k);
      ParseZeros(k);
    } else {
      var t := Zeros(k) + s;
      assert t[..|t| - 1] == Zeros(k) + s[..|s| - 1];
      ParseLeadingZeros(k, s[..|s| - 1]);
    }
  }

  /** Reading a zero-padded number back gives the number. */
  lemma PaddedRoundTrip(n: nat, w: nat)
    ensures ParseDigits(Padded(n, w)) == n
  {
    DecimalRoundTrip(n);
    if |Decimal(n)| < w {
      ParseLeadingZeros(w - |Decimal(n)|, Decimal(n));
    } else {
      assert Padded(n, w) == Decimal(n);
    }
  }

  /** Padding to `w` gives exactly `w` digits when the number fits in them. */
  lemma PaddedExactWidth(n: nat, w: nat)
    requires 1 <= w && n < Pow10(w)
    ensures |Padded(n, w)| == w
  {
    DecimalLength(n, w);
  }

  /** A separator that is not a digit never occurs in a digit string. */
  lemma DigitsAvoid(s: string, c: char)
    requires AllDigits(s) && !IsDigit(c)
    ensures c !in s
  {
  }
}
