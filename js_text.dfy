/** The JavaScript string operations the application relies on, over Dafny strings
    (sequences of `char`, one `char` per Unicode scalar value). JavaScript's `length` and
    indices count UTF-16 code units instead; `Utf16Length` gives that count where it
    matters. */
module JsText {

  /** The WhiteSpace and LineTerminator code points of ECMAScript: what
      `String.prototype.trim` removes and what the regular-expression class `\s` matches. */
  predicate IsWhitespace(c: char) {
    c == '\t' || c == '\n' || c == '\U{000B}' || c == '\U{000C}' || c == '\r' || c == ' '
    || c == '\U{00A0}' || c == '\U{1680}' || ('\U{2000}' <= c <= '\U{200A}')
    || c == '\U{2028}' || c == '\U{2029}' || c == '\U{202F}' || c == '\U{205F}'
    || c == '\U{3000}' || c == '\U{FEFF}'
  }

  predicate AllWhitespace(s: string) {
    forall i :: 0 <= i < |s| ==> IsWhitespace(s[i])
  }

  /** No whitespace at either end: what `trim` leaves. */
  predicate Trimmed(s: string) {
    s == [] || (!IsWhitespace(s[0]) && !IsWhitespace(s[|s| - 1]))
  }

  /** `s.trimStart()`: keeps a suffix that does not start with whitespace. */
  function TrimStart(s: string): (r: string)
    ensures |r| <= |s| && r == s[|s| - |r|..]
    ensures r == [] || !IsWhitespace(r[0])
  {
    if s != [] && IsWhitespace(s[0]) then TrimStart(s[1..]) else s
  }

  /** What `trimStart` drops is whitespace. */
  lemma {:induction false} TrimStartDropsWhitespace(s: string)
    ensures AllWhitespace(s[..|s| - |TrimStart(s)|])
    decreases |s|
  {
    if s != [] && IsWhitespace(s[0]) {
      TrimStartDropsWhitespace(s[1..]);
      var n := |s| - |TrimStart(s)|;
      forall i | 0 <= i < n ensures IsWhitespace(s[..n][i]) {
        if i > 0 {
          assert s[..n][i] == s[1..][..n - 1][i - 1];
        }
      }
    }
  }

  /** `s.trimEnd()`: keeps a prefix that does not end with whitespace. */
  function TrimEnd(s: string): (r: string)
    ensures |r| <= |s| && r == s[..|r|]
    ensures r == [] || !IsWhitespace(r[|r| - 1])
  {
    if s != [] && IsWhitespace(s[|s| - 1]) then TrimEnd(s[..|s| - 1]) else s
  }

  /** What `trimEnd` drops is whitespace. */
  lemma {:induction false} TrimEndDropsWhitespace(s: string)
    ensures AllWhitespace(s[|TrimEnd(s)|..])
    decreases |s|
  {
    if s != [] && IsWhitespace(s[|s| - 1]) {
      var p := s[..|s| - 1];
      TrimEndDropsWhitespace(p);
      var n := |TrimEnd(s)|;
      forall i | n <= i < |s| ensures IsWhitespace(s[i]) {
        if i < |s| - 1 {
          assert s[i] == p[n..][i - n];
        }
      }
    }
  }

  /** `s.trim()`: the result has no whitespace at either end and is never longer. */
  function Trim(s: string): (r: string)
    ensures Trimmed(r)
    ensures |r| <= |s|
  {
    var t := TrimStart(s);
    var r := TrimEnd(t);
    assert r != [] ==> r[0] == t[0];
    r
  }

  /** A prefix `r` of a suffix `t` of `s` occurs in `s` where `t` starts, and when what
      follows `r` in `t` is whitespace, so is what follows it in `s`. */
  lemma PrefixOfSuffix(s: string, t: string, r: string)
    requires |t| <= |s| && t == s[|s| - |t|..]
    requires |r| <= |t| && r == t[..|r|] && AllWhitespace(t[|r|..])
    ensures OccursAt(s, r, |s| - |t|) && AllWhitespace(s[|s| - |t| + |r|..])
  {
    var a := |s| - |t|;
    assert s[a..a + |r|] == t[..|r|];
    assert s[a + |r|..] == t[|r|..];
  }

  /** What `trim` keeps is the slice of `s` after the leading whitespace (which
      `TrimStartDropsWhitespace` describes), and what it cuts off after it is whitespace. */
  lemma TrimIsSlice(s: string)
    ensures OccursAt(s, Trim(s), |s| - |TrimStart(s)|)
    ensures AllWhitespace(s[|s| - |TrimStart(s)| + |Trim(s)|..])
  {
    TrimEndDropsWhitespace(TrimStart(s));
    PrefixOfSuffix(s, TrimStart(s), Trim(s));
  }

  /** Trimming adds no character: one absent from the text is absent from the result. */
  lemma TrimKeepsAbsent(s: string, c: char)
    requires c !in s
    ensures c !in Trim(s)
  {
    var t := TrimStart(s);
    SliceKeepsAbsent(s, |s| - |t|, |s|, c);
    SliceKeepsAbsent(t, 0, |TrimEnd(t)|, c);
  }

  /** A slice holds no character its string does not hold. */
  lemma SliceKeepsAbsent(s: string, lo: nat, hi: nat, c: char)
    requires lo <= hi <= |s| && c !in s
    ensures c !in s[lo..hi]
  {
    forall i | 0 <= i < hi - lo ensures s[lo..hi][i] != c {
      assert s[lo..hi][i] == s[lo + i];
    }
  }

  /** A string with no whitespace at its ends is left alone by `trim`. */
  lemma TrimOfTrimmed(s: string)
    requires Trimmed(s)
    ensures Trim(s) == s
  {
  }

  /** `s.startsWith(p)`. */
  predicate StartsWith(s: string, p: string) {
    |p| <= |s| && s[..|p|] == p
  }

  /** A non-empty string followed by `s` is its first character followed by the rest
      and `s`. */
  lemma ConsAppend(a: string, s: string)
    requires a != []
    ensures a + s == [a[0]] + (a[1..] + s)
  {
  }

  /** `s.endsWith(p)`. */
  predicate EndsWith(s: string, p: string) {
    |p| <= |s| && s[|s| - |p|..] == p
  }

  /** `s.includes(p)`, scanning from the left. */
  predicate Contains(s: string, p: string)
    decreases |s|
  {
    StartsWith(s, p) || (s != [] && Contains(s[1..], p))
  }

  /** `p` occurs in `s` at position `i`. */
  predicate OccursAt(s: string, p: string, i: int) {
    0 <= i <= |s| - |p| && s[i..i + |p|] == p
  }

  /** `Contains` holds exactly when `p` occurs at some position of `s`. */
  lemma {:induction false} ContainsIffOccurs(s: string, p: string)
    ensures Contains(s, p) <==> exists i :: OccursAt(s, p, i)
    decreases |s|
  {
    if StartsWith(s, p) {
      assert OccursAt(s, p, 0);
    } else if s != [] {
      ContainsIffOccurs(s[1..], p);
      if Contains(s[1..], p) {
        var i :| OccursAt(s[1..], p, i);
        assert s[i + 1..i + 1 + |p|] == s[1..][i..i + |p|];
        assert OccursAt(s, p, i + 1);
      }
      if exists i :: OccursAt(s, p, i) {
        var i :| OccursAt(s, p, i);
        assert i != 0;
        assert s[1..][i - 1..i - 1 + |p|] == s[i..i + |p|];
        assert OccursAt(s[1..], p, i - 1);
      }
    }
  }

  /** `s.indexOf(c)`: the first position of `c`, or -1 when `c` does not occur. */
  function IndexOf(s: string, c: char): (i: int)
    ensures -1 <= i < |s|
    ensures 0 <= i ==> s[i] == c
  {
    if s == [] then -1
    else if s[0] == c then 0
    else
      var j := IndexOf(s[1..], c);
      if j == -1 then -1 else j + 1
  }

  /** -1 means `c` does not occur, and any other result is its first position. */
  lemma {:induction false} IndexOfFirst(s: string, c: char)
    ensures IndexOf(s, c) == -1 <==> c !in s
    ensures 0 <= IndexOf(s, c) ==> c !in s[..IndexOf(s, c)]
  {
    if s != [] && s[0] != c {
      var j := IndexOf(s[1..], c);
      IndexOfFirst(s[1..], c);
      assert s == [s[0]] + s[1..];
      if j != -1 {
        assert s[..j + 1] == [s[0]] + s[1..][..j];
      }
    }
  }

  /** The first `c` in `a + [c] + rest`, when `a` has none, is the one after `a`. */
  lemma {:induction false} IndexOfAfterClean(a: string, c: char, rest: string)
    requires c !in a
    ensures IndexOf(a + [c] + rest, c) == |a|
    ensures (a + [c] + rest)[..|a|] == a && (a + [c] + rest)[|a| + 1..] == rest
    decreases |a|
  {
    var s := a + [c] + rest;
    if a != [] {
      assert a[0] in a;
      assert s[1..] == a[1..] + [c] + rest;
      IndexOfAfterClean(a[1..], c, rest);
    }
    assert s[..|a|] == a;
    assert s[|a| + 1..] == rest;
  }

  /** `parts.join(sep)` for a one-character separator. */
  function Join(parts: seq<string>, sep: char): string
    requires |parts| >= 1
  {
    if |parts| == 1 then parts[0] else parts[0] + [sep] + Join(parts[1..], sep)
  }

  /** `s.split(sep)` for a one-character separator: the pieces between separators,
      none of which contains the separator, and joining them back gives `s`. */
  function Split(s: string, sep: char): (parts: seq<string>)
    ensures |parts| >= 1
    decreases |s|
  {
    var i := IndexOf(s, sep);
    if i == -1 then [s]
    else [s[..i]] + Split(s[i + 1..], sep)
  }

  /** No piece holds the separator. */
  lemma {:induction false} SplitPiecesClean(s: string, sep: char)
    ensures forall k :: 0 <= k < |Split(s, sep)| ==> sep !in Split(s, sep)[k]
    decreases |s|
  {
    var i := IndexOf(s, sep);
    IndexOfFirst(s, sep);
    if i != -1 {
      var parts := Split(s, sep);
      var rest := Split(s[i + 1..], sep);
      SplitPiecesClean(s[i + 1..], sep);
      assert parts == [s[..i]] + rest;
      forall k | 0 <= k < |parts| ensures sep !in parts[k] {
        if k > 0 {
          assert parts[k] == rest[k - 1];
        }
      }
    }
  }

  /** There is more than one piece exactly when the string holds the separator. */
  lemma SplitCount(s: string, sep: char)
    ensures |Split(s, sep)| >= 2 <==> sep in s
  {
    IndexOfFirst(s, sep);
  }

  /** Joining the pieces with the separator gives the string back. */
  lemma {:induction false} SplitJoin(s: string, sep: char)
    ensures Join(Split(s, sep), sep) == s
    decreases |s|
  {
    var i := IndexOf(s, sep);
    if i == -1 {
      assert Split(s, sep) == [s];
    } else {
      var rest := Split(s[i + 1..], sep);
      SplitJoin(s[i + 1..], sep);
      SplitAt(s, sep, i, rest);
      JoinAround(s, i, rest, sep);
    }
  }

  /** At its first separator `i` a string splits into the piece before it and the pieces
      `rest` of what follows. */
  lemma SplitAt(s: string, sep: char, i: int, rest: seq<string>)
    requires i == IndexOf(s, sep) && i != -1 && rest == Split(s[i + 1..], sep)
    ensures Split(s, sep) == [s[..i]] + rest
  {
  }

  /** The piece before a separator, joined with pieces that give back what follows it,
      gives back the whole string. */
  lemma JoinAround(s: string, i: nat, rest: seq<string>, sep: char)
    requires i < |s| && s[i] == sep && |rest| >= 1 && Join(rest, sep) == s[i + 1..]
    ensures Join([s[..i]] + rest, sep) == s
  {
    JoinCons(s[..i], rest, sep);
    Around(s, i);
  }

  /** A string is what precedes position `i`, the character there, and what follows. */
  lemma Around(s: string, i: nat)
    requires i < |s|
    ensures s == s[..i] + [s[i]] + s[i + 1..]
  {
  }

  /** Joining a first piece in front of others puts one separator between them. */
  lemma JoinCons(head: string, rest: seq<string>, sep: char)
    requires |rest| >= 1
    ensures Join([head] + rest, sep) == head + [sep] + Join(rest, sep)
  {
    assert ([head] + rest)[1..] == rest;
  }

  /** A first piece without the separator is split off at the separator after it. */
  lemma SplitFirstPiece(head: string, sep: char, tail: string)
    requires sep !in head
    ensures Split(head + [sep] + tail, sep) == [head] + Split(tail, sep)
  {
    IndexOfAfterClean(head, sep, tail);
  }

  /** A string without the separator is a single piece. */
  lemma SplitClean(s: string, sep: char)
    requires sep !in s
    ensures Split(s, sep) == [s]
  {
    IndexOfFirst(s, sep);
  }


  /** The UTF-16 code units of one character: two (a surrogate pair) beyond the Basic
      Multilingual Plane, one otherwise. */
  function Utf16Units(c: char): nat {
    if c as int > 0xFFFF then 2 else 1
  }

  /** `s.length` in JavaScript: the number of UTF-16 code units, between one and two per
      character. */
  function Utf16Length(s: string): (n: nat)
    ensures |s| <= n <= 2 * |s|
  {
    if s == [] then 0 else Utf16Length(s[..|s| - 1]) + Utf16Units(s[|s| - 1])
  }

  /** Text inside the Basic Multilingual Plane has one code unit per character. */
  lemma {:induction false} Utf16LengthOfBmp(s: string)
    requires forall i :: 0 <= i < |s| ==> s[i] as int <= 0xFFFF
    ensures Utf16Length(s) == |s|
  {
    if s != [] {
      Utf16LengthOfBmp(s[..|s| - 1]);
    }
  }

  /** Text wholly beyond the Basic Multilingual Plane has two code units per character. */
  lemma {:induction false} Utf16LengthOfAstral(s: string)
    requires forall i :: 0 <= i < |s| ==> s[i] as int > 0xFFFF
    ensures Utf16Length(s) == 2 * |s|
  {
    if s != [] {
      Utf16LengthOfAstral(s[..|s| - 1]);
    }
  }

  /** `s.charAt(0)`: the first character, or the empty string. */
  function FirstChar(s: string): string {
    if s == [] then "" else [s[0]]
  }

  /** Upper case of one character; only the basic Latin letters are mapped. */
  function UpperChar(c: char): char {
    if 'a' <= c <= 'z' then (c as int - 32) as char else c
  }

  /** `s.toUpperCase()` on basic Latin letters. */
  function ToUpper(s: string): (r: string)
    ensures |r| == |s|
    ensures forall i :: 0 <= i < |s| ==> r[i] == UpperChar(s[i])
  {
    if s == [] then [] else [UpperChar(s[0])] + ToUpper(s[1..])
  }

  predicate IsDigit(c: char) {
    '0' <= c <= '9'
  }

  function DigitValue(c: char): nat
    requires IsDigit(c)
  {
    c as int - '0' as int
  }

  function DigitChar(d: nat): (c: char)
    requires d < 10
    ensures IsDigit(c) && DigitValue(c) == d
  {
    ('0' as int + d) as char
  }

  /** The decimal digits of a natural number, most significant first, without leading zeros. */
  function NatDigits(n: nat): (s: string)
    ensures |s| >= 1
    ensures forall i :: 0 <= i < |s| ==> IsDigit(s[i])
    decreases n
  {
    if n < 10 then [DigitChar(n)] else NatDigits(n / 10) + [DigitChar(n % 10)]
  }

  /** `String(n)` for an integer. */
  function DecimalString(n: int): string {
    if n < 0 then "-" + NatDigits(-n) else NatDigits(n)
  }
}
