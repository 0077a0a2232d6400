/** The Python string operations the FeaR scripts rely on, written out on
    `string` (a sequence of code points, as Python 3's `str` is). */
module Text {

  const TAB: char := '\t'
  const CRT: char := '\n'

  /** Python's `str.isspace()`: the characters `str.strip()` removes. */
  predicate IsSpace(c: char) {
    || c == ' '
    || ('\t' <= c <= '\r')
    || ('\U{1c}' <= c <= '\U{1f}')
    || c == '\U{85}' || c == '\U{a0}' || c == '\U{1680}'
    || ('\U{2000}' <= c <= '\U{200a}')
    || c == '\U{2028}' || c == '\U{2029}' || c == '\U{202f}'
    || c == '\U{205f}' || c == '\U{3000}'
  }

  function TrimLeft(s: string): (r: string)
    ensures |r| <= |s|
  {
    if |s| > 0 && IsSpace(s[0]) then TrimLeft(s[1..]) else s
  }

  /** What `TrimLeft` cuts off is white space, and what it keeps is a
      suffix that does not start with any. */
  lemma {:induction false} TrimLeftSpec(s: string)
    ensures var r := TrimLeft(s);
      && r == s[|s| - |r|..]
      && (r == [] || !IsSpace(r[0]))
      && forall i :: 0 <= i < |s| - |r| ==> IsSpace(s[i])
    decreases |s|
  {
    if |s| > 0 && IsSpace(s[0]) {
      TrimLeftSpec(s[1..]);
    }
  }

  function TrimRight(s: string): (r: string)
    ensures |r| <= |s|
  {
    if |s| > 0 && IsSpace(s[|s| - 1]) then TrimRight(s[..|s| - 1]) else s
  }

  /** What `TrimRight` cuts off is white space, and what it keeps is a
      prefix that does not end with any. */
  lemma {:induction false} TrimRightSpec(s: string)
    ensures var r := TrimRight(s);
      && r == s[..|r|]
      && (r == [] || !IsSpace(r[|r| - 1]))
      && forall i :: |r| <= i < |s| ==> IsSpace(s[i])
    decreases |s|
  {
    if |s| > 0 && IsSpace(s[|s| - 1]) {
      TrimRightSpec(s[..|s| - 1]);
    }
  }

  /** Python's `str.strip()`: a middle slice of `s` that neither starts nor
      ends with white space, everything cut off being white space. */
  function Strip(s: string): string {
    TrimRight(TrimLeft(s))
  }

  /** What `Strip` keeps is a slice of `s` that neither starts nor ends
      with white space. */
  lemma StripSpec(s: string)
    ensures var r := Strip(s);
      && (forall c :: c in r ==> c in s)
      && (r == [] || (!IsSpace(r[0]) && !IsSpace(r[|r| - 1])))
  {
    TrimLeftSpec(s);
    TrimRightSpec(TrimLeft(s));
    var l := TrimLeft(s);
    var r := TrimRight(l);
    assert forall c :: c in r ==> c in l;
  }

  function LowerChar(c: char): char {
    if 'A' <= c <= 'Z' then (c as int + 32) as char else c
  }

  /** Python's `str.lower()` on the ASCII letters; other characters unchanged. */
  function Lower(s: string): (r: string)
    ensures |r| == |s|
  {
    seq(|s|, i requires 0 <= i < |s| => LowerChar(s[i]))
  }

  predicate IsLower(s: string) {
    forall i :: 0 <= i < |s| ==> !('A' <= s[i] <= 'Z')
  }

  /** Lower-casing gives a lower-case string, and leaves one unchanged. */
  lemma LowerIsLower(s: string)
    ensures IsLower(Lower(s))
    ensures IsLower(s) ==> Lower(s) == s
  {
  }

  lemma LowerIdempotent(s: string)
    ensures Lower(Lower(s)) == Lower(s)
  {
    LowerIsLower(s);
    LowerIsLower(Lower(s));
  }

  /** `s.find(c)`: index of the first `c`, or -1. */
  function Find(s: string, c: char): (r: int)
    ensures -1 <= r < |s|
    ensures r == -1 <==> c !in s
    ensures r >= 0 ==> s[r] == c && c !in s[..r]
  {
    if |s| == 0 then -1
    else if s[0] == c then 0
    else
      var k := Find(s[1..], c);
      assert s[1..] == s[1..][..|s| - 1];
      if k == -1 then -1
      else
        assert s[..k + 1] == [s[0]] + s[1..][..k];
        k + 1
  }

  predicate StartsWith(s: string, p: string) {
    |p| <= |s| && s[..|p|] == p
  }

  /** Python's `s.split(c)` with an explicit one-character separator. */
  function Split(s: string, c: char): (r: seq<string>)
    ensures |r| >= 1
    ensures |r| >= 2 <==> c in s
    decreases |s|
  {
    if |s| == 0 then [""]
    else if s[0] == c then [""] + Split(s[1..], c)
    else
      var rest := Split(s[1..], c);
      [[s[0]] + rest[0]] + rest[1..]
  }

  /** Python's `sep.join(parts)`. */
  function Join(parts: seq<string>, sep: string): string
    decreases |parts|
  {
    if |parts| == 0 then ""
    else if |parts| == 1 then parts[0]
    else parts[0] + sep + Join(parts[1..], sep)
  }

  /** `"".join(parts)` */
  function Concat(parts: seq<string>): string {
    Join(parts, "")
  }

  /** Joining one more piece adds the separator and the piece, unless there
      was nothing to join before. */
  lemma {:induction false} JoinAppend(parts: seq<string>, x: string, sep: string)
    ensures Join(parts + [x], sep) == if |parts| == 0 then x else Join(parts, sep) + sep + x
    decreases |parts|
  {
    if |parts| == 1 {
      assert parts + [x] == [parts[0], x];
      assert Join([x], sep) == x;
    } else if |parts| > 1 {
      assert (parts + [x])[1..] == parts[1..] + [x];
      JoinAppend(parts[1..], x, sep);
    }
  }

  /** `''.join` of one more piece appends it. */
  lemma ConcatAppend(parts: seq<string>, x: string)
    ensures Concat(parts + [x]) == Concat(parts) + x
  {
    JoinAppend(parts, x, "");
  }

  /** No piece of a split holds the separator. */
  lemma {:induction false} SplitNoSeparator(s: string, c: char)
    ensures forall k :: 0 <= k < |Split(s, c)| ==> c !in Split(s, c)[k]
    decreases |s|
  {
    if |s| > 0 {
      SplitNoSeparator(s[1..], c);
    }
  }

  /** Joining the pieces of a split gives back the string. */
  lemma {:induction false} JoinSplit(s: string, c: char)
    ensures Join(Split(s, c), [c]) == s
    decreases |s|
  {
    if |s| > 0 {
      JoinSplit(s[1..], c);
      if s[0] == c {
        JoinBlankHead(Split(s[1..], c), [c]);
      } else {
        JoinPrepend(s[0], Split(s[1..], c), [c]);
      }
      HeadTail(s);
    }
  }

  /** A non-empty string is its first character and the rest. */
  lemma HeadTail(s: string)
    requires |s| > 0
    ensures [s[0]] + s[1..] == s
  {
  }

  /** An empty first piece leaves the join starting with the separator. */
  lemma JoinBlankHead(rest: seq<string>, sep: string)
    requires |rest| >= 1
    ensures Join([""] + rest, sep) == sep + Join(rest, sep)
  {
    assert ([""] + rest)[1..] == rest;
  }

  /** A character put before the first piece comes first in the join. */
  lemma JoinPrepend(x: char, rest: seq<string>, sep: string)
    requires |rest| >= 1
    ensures Join([[x] + rest[0]] + rest[1..], sep) == [x] + Join(rest, sep)
  {
    var r := [[x] + rest[0]] + rest[1..];
    if |rest| > 1 {
      assert r[1..] == rest[1..];
      assert Join(rest, sep) == rest[0] + sep + Join(rest[1..], sep);
    }
  }

  /** Splitting the join of separator-free pieces gives back the pieces. */
  lemma {:induction false} SplitJoin(parts: seq<string>, c: char)
    requires |parts| >= 1
    requires forall k :: 0 <= k < |parts| ==> c !in parts[k]
    ensures Split(Join(parts, [c]), c) == parts
    decreases |parts|
  {
    if |parts| == 1 {
      SplitPlain(parts[0], c);
    } else {
      SplitJoin(parts[1..], c);
      SplitCons(parts[0], Join(parts[1..], [c]), c);
      assert Join(parts, [c]) == parts[0] + [c] + Join(parts[1..], [c]);
      assert [parts[0]] + parts[1..] == parts;
    }
  }

  /** A string without the separator splits into itself. */
  lemma {:induction false} SplitPlain(s: string, c: char)
    requires c !in s
    ensures Split(s, c) == [s]
    decreases |s|
  {
    if |s| > 0 {
      SplitPlain(s[1..], c);
      assert [s[0]] + s[1..] == s;
    }
  }

  /** Splitting `a + c + b`, where `a` has no `c`, starts with the piece `a`. */
  lemma {:induction false} SplitCons(a: string, b: string, c: char)
    requires c !in a
    ensures Split(a + [c] + b, c) == [a] + Split(b, c)
    decreases |a|
  {
    if |a| == 0 {
      assert a + [c] + b == [c] + b;
      assert ([c] + b)[1..] == b;
    } else {
      var s := a + [c] + b;
      assert s[0] == a[0];
      assert s[1..] == a[1..] + [c] + b;
      SplitCons(a[1..], b, c);
      assert [a[0]] + a[1..] == a;
    }
  }

  /** The first piece of a split is the text before the first separator. */
  lemma SplitFirst(s: string, c: char)
    requires c in s
    ensures Split(s, c) == [s[..Find(s, c)]] + Split(s[Find(s, c) + 1..], c)
  {
    var k := Find(s, c);
    SliceAround(s, k);
    SplitCons(s[..k], s[k + 1..], c);
  }

  /** A string is the text before place `k`, the character there and the
      text after it. */
  lemma SliceAround(s: string, k: nat)
    requires k < |s|
    ensures s[..k] + [s[k]] + s[k + 1..] == s
  {
  }

  /** A string that splits into two pieces has exactly one separator. */
  lemma TwoPiecesOneSeparator(s: string, c: char)
    requires |Split(s, c)| == 2
    ensures exists a, b :: s == a + [c] + b && c !in a && c !in b
  {
    var k := Find(s, c);
    SplitFirst(s, c);
    var b := s[k + 1..];
    assert |Split(b, c)| == 1;
    assert s == s[..k] + [c] + b;
  }

  /** The first piece of a split is a separator-free prefix of the string. */
  lemma SplitFirstPiece(s: string, c: char)
    ensures StartsWith(s, Split(s, c)[0]) && c !in Split(s, c)[0]
  {
    if c in s {
      SplitFirst(s, c);
    } else {
      SplitPlain(s, c);
    }
  }

  /** Splitting after a character-wise map that keeps the separator (and only
      it) on the separator splits at the same places. */
  lemma {:induction false} SplitLower(s: string, c: char)
    requires forall x: char :: LowerChar(x) == c <==> x == c
    ensures |Split(Lower(s), c)| == |Split(s, c)|
    decreases |s|
  {
    if |s| > 0 {
      assert Lower(s)[1..] == Lower(s[1..]);
      SplitLower(s[1..], c);
      assert Lower(s)[0] == LowerChar(s[0]);
    }
  }

  /** `' ' * n` and `'-' * n` */
  function Repeat(c: char, n: nat): string
  {
    seq(n, _ => c)
  }

  /** The spaces that pad a field. */
  function Spaces(n: nat): (r: string)
    ensures |r| == n
  {
    if n == 0 then "" else Spaces(n - 1) + [' ']
  }

  /** `Spaces(n)` holds nothing but blanks. */
  lemma {:induction false} SpacesBlank(n: nat)
    ensures forall i :: 0 <= i < n ==> Spaces(n)[i] == ' '
  {
    if n > 0 {
      SpacesBlank(n - 1);
      assert Spaces(n) == Spaces(n - 1) + [' '];
    }
  }

  /** Python's `'%-ws' % s`: left-justified in a field of width `w`. */
  function PadRight(s: string, w: nat): (r: string)
    ensures |r| == if |s| < w then w else |s|
  {
    if |s| < w then s + Spaces(w - |s|) else s
  }

  /** The padded text starts with `s` and continues with spaces only. */
  lemma PadRightSpec(s: string, w: nat)
    ensures var r := PadRight(s, w);
      StartsWith(r, s) && forall i :: |s| <= i < |r| ==> r[i] == ' '
  {
    if |s| < w {
      SpacesBlank(w - |s|);
    }
  }

  /** A `%`-format of left-justified fields two blanks apart, such as
      `'%-12s  %-20s' % (a, b)`: each field is a text and its width. */
  function Columns(fields: seq<(string, nat)>): string
    decreases |fields|
  {
    if |fields| == 0 then ""
    else if |fields| == 1 then PadRight(fields[0].0, fields[0].1)
    else
      var last := fields[|fields| - 1];
      Columns(fields[..|fields| - 1]) + "  " + PadRight(last.0, last.1)
  }

  /** A formatted line starts with its first field's text. */
  lemma {:induction false} ColumnsStartsWith(fields: seq<(string, nat)>)
    requires |fields| > 0
    ensures StartsWith(Columns(fields), fields[0].0)
    decreases |fields|
  {
    if |fields| == 1 {
      PadRightSpec(fields[0].0, fields[0].1);
    } else {
      var p := fields[..|fields| - 1];
      ColumnsStartsWith(p);
      var last := fields[|fields| - 1];
      var r := Columns(p) + "  " + PadRight(last.0, last.1);
      assert r[..|Columns(p)|] == Columns(p);
      assert r[..|fields[0].0|] == Columns(p)[..|fields[0].0|];
    }
  }

  /** CPython's `str.center(w)`: the extra odd space goes left only when both
      the margin and the width are odd. */
  function Center(s: string, w: nat): (r: string)
    ensures |r| == if |s| < w then w else |s|
  {
    if |s| >= w then s
    else
      var marg := w - |s|;
      var left := marg / 2 + (if marg % 2 == 1 && w % 2 == 1 then 1 else 0);
      Repeat(' ', left) + s + Repeat(' ', marg - left)
  }

  function DigitChar(d: nat): char
    requires d < 10
  {
    ('0' as int + d) as char
  }

  predicate IsDigit(c: char) {
    '0' <= c <= '9'
  }

  /** Python's `str(n)` for a non-negative integer. */
  function NatToString(n: nat): string {
    if n < 10 then [DigitChar(n)] else NatToString(n / 10) + [DigitChar(n % 10)]
  }

  /** `str(n)` is a non-empty string of decimal digits. */
  lemma {:induction false} NatToStringDigits(n: nat)
    ensures var r := NatToString(n); |r| >= 1 && forall i :: 0 <= i < |r| ==> IsDigit(r[i])
  {
    if n >= 10 {
      NatToStringDigits(n / 10);
    }
  }

  /** Python's `str(n)` (and `'%s' % n`) for an integer. */
  /** `str(n)` has no leading zero: only zero itself is written starting
      with `0`, and it is written `0`. */
  lemma {:induction false} NatToStringNoLeadingZero(n: nat)
    ensures NatToString(n)[0] == '0' ==> NatToString(n) == "0"
  {
    if n >= 10 {
      NatToStringNoLeadingZero(n / 10);
      assert NatToString(n)[0] == NatToString(n / 10)[0];
    }
  }

  /** Digits with a leading zero and more than one digit are never `str(n)`. */
  lemma IntToStringNotPadded(n: int, d: string)
    requires |d| >= 2 && d[0] == '0'
    ensures IntToString(n) != d
  {
    if n >= 0 {
      NatToStringNoLeadingZero(n);
    }
  }

  function IntToString(n: int): string {
    if n < 0 then "-" + NatToString(-n) else NatToString(n)
  }

  /** `str(n)` holds neither a tab nor a newline. */
  lemma IntToStringNoBreaks(n: int)
    ensures TAB !in IntToString(n) && CRT !in IntToString(n)
  {
    NatToStringDigits(if n < 0 then -n else n);
  }

  function DigitValue(c: char): nat
    requires IsDigit(c)
  {
    c as int - '0' as int
  }

  /** The value of a string of decimal digits. */
  function DecimalValue(s: string): nat
    requires forall i :: 0 <= i < |s| ==> IsDigit(s[i])
  {
    if |s| == 0 then 0 else DecimalValue(s[..|s| - 1]) * 10 + DigitValue(s[|s| - 1])
  }

  /** Reading back what `str(n)` wrote gives `n`. */
  lemma {:induction false} NatToStringRoundTrip(n: nat)
    ensures var s := NatToString(n);
      (forall i :: 0 <= i < |s| ==> IsDigit(s[i])) && DecimalValue(s) == n
  {
    NatToStringDigits(n);
    if n >= 10 {
      NatToStringRoundTrip(n / 10);
      var s := NatToString(n);
      assert s[..|s| - 1] == NatToString(n / 10);
    }
  }

  /** Appending strings is associative (used where report text is appended
      piece by piece). */
  lemma AppendAssoc(a: string, b: string, c: string)
    ensures (a + b) + c == a + (b + c)
  {
  }

  lemma AppendAssoc3(a: string, b: string, c: string, d: string)
    ensures ((a + b) + c) + d == a + ((b + c) + d)
  {
  }
}
