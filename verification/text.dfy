/** String operations of the JavaScript standard library that the modelled
    code relies on: `trim`, `toLowerCase` (over ASCII), `startsWith`,
    `includes`, `join`, `split`, `padStart`, the CRLF replacement and the
    decimal rendering of integers. */
module Text {

  /** Characters removed by `String.prototype.trim` and matched by `\s`:
      ECMAScript WhiteSpace and LineTerminator. */
  predicate IsWhitespace(c: char) {
    c == ' ' || c == '\t' || c == '\n' || c == '\r' || c == '\U{000B}' || c == '\U{000C}'
    || c == '\U{00A0}' || c == '\U{1680}' || ('\U{2000}' <= c <= '\U{200A}')
    || c == '\U{2028}' || c == '\U{2029}' || c == '\U{202F}' || c == '\U{205F}'
    || c == '\U{3000}' || c == '\U{FEFF}'
  }

  /** Characters that a regular-expression `.` does not match. */
  predicate IsLineTerminator(c: char) {
    c == '\n' || c == '\r' || c == '\U{2028}' || c == '\U{2029}'
  }

  predicate IsBlank(s: string) {
    forall i :: 0 <= i < |s| ==> IsWhitespace(s[i])
  }

  /** Neither end of `s` is whitespace. */
  predicate IsTrimmed(s: string) {
    |s| == 0 || (!IsWhitespace(s[0]) && !IsWhitespace(s[|s| - 1]))
  }

  /** The part of `s` after its leading whitespace (also the greedy `^\s*`). */
  function TrimStart(s: string): (r: string)
    ensures |r| <= |s|
    ensures |r| == 0 || !IsWhitespace(r[0])
    ensures forall i :: 0 <= i < |s| - |r| ==> IsWhitespace(s[i])
    decreases |s|
  {
    if |s| > 0 && IsWhitespace(s[0]) then TrimStart(s[1..]) else s
  }

  /** The part of `s` before its trailing whitespace. */
  function TrimEnd(s: string): (r: string)
    ensures |r| <= |s|
    ensures |r| == 0 || !IsWhitespace(r[|r| - 1])
    ensures forall i :: |r| <= i < |s| ==> IsWhitespace(s[i])
    decreases |s|
  {
    if |s| > 0 && IsWhitespace(s[|s| - 1]) then TrimEnd(s[..|s| - 1]) else s
  }

  /** What `TrimStart` keeps is a suffix of its input. */
  lemma {:induction false} TrimStartIsSuffix(s: string)
    ensures TrimStart(s) == s[|s| - |TrimStart(s)|..]
    decreases |s|
  {
    if |s| > 0 && IsWhitespace(s[0]) {
      TrimStartIsSuffix(s[1..]);
      assert s[1..][|s[1..]| - |TrimStart(s[1..])|..] == s[|s| - |TrimStart(s)|..];
    }
  }

  /** What `TrimEnd` keeps is a prefix of its input. */
  lemma {:induction false} TrimEndIsPrefix(s: string)
    ensures TrimEnd(s) == s[..|TrimEnd(s)|]
    decreases |s|
  {
    if |s| > 0 && IsWhitespace(s[|s| - 1]) {
      TrimEndIsPrefix(s[..|s| - 1]);
      assert s[..|s| - 1][..|TrimEnd(s)|] == s[..|TrimEnd(s)|];
    }
  }

  /** `s.trim()`: the result has no whitespace at either end, is no longer
      than `s`, and is empty exactly when `s` is blank. */
  function Trim(s: string): (r: string)
    ensures IsTrimmed(r)
    ensures |r| <= |s|
    ensures r == [] <==> IsBlank(s)
  {
    var t := TrimStart(s);
    var r := TrimEnd(t);
    TrimStartIsSuffix(s);
    TrimEndIsPrefix(t);
    assert t != [] ==> t[0] == s[|s| - |t|];
    assert r != [] ==> r[0] == t[0];
    assert r == [] ==> t == [];
    r
  }

  /** Trimming adds no character. */
  lemma TrimKeepsCharacters(s: string)
    ensures forall c :: c in Trim(s) ==> c in s
  {
    var t := TrimStart(s);
    TrimStartIsSuffix(s);
    TrimEndIsPrefix(t);
    assert forall c :: c in TrimEnd(t) ==> c in t;
    assert forall c :: c in t ==> c in s;
  }

  /** A string that does not open with whitespace keeps its first character. */
  lemma TrimKeepsFirst(s: string)
    requires |s| > 0 && !IsWhitespace(s[0])
    ensures |Trim(s)| > 0 && Trim(s)[0] == s[0]
  {
    var t := TrimStart(s);
    TrimStartIsSuffix(s);
    TrimEndIsPrefix(t);
    assert t == s;
  }

  /** Trimming is idempotent: a trimmed string is its own trim. */
  lemma TrimTrimmed(s: string)
    requires IsTrimmed(s)
    ensures Trim(s) == s
  {
  }

  /** Appending whitespace to a string either extends its trimmed start or
      leaves both blank. */
  lemma {:induction false} TrimStartAppendWhitespace(s: string, c: char)
    requires IsWhitespace(c)
    ensures TrimStart(s + [c]) == TrimStart(s) + [c] || (TrimStart(s) == [] && TrimStart(s + [c]) == [])
    decreases |s|
  {
    if |s| > 0 && IsWhitespace(s[0]) {
      assert (s + [c])[1..] == s[1..] + [c];
      TrimStartAppendWhitespace(s[1..], c);
    }
  }

  /** Whitespace at either end never changes the trim. */
  lemma TrimAroundWhitespace(s: string, c: char)
    requires IsWhitespace(c)
    ensures Trim(s + [c]) == Trim(s)
    ensures Trim([c] + s) == Trim(s)
  {
    TrimStartAppendWhitespace(s, c);
    var t := TrimStart(s);
    if TrimStart(s + [c]) == t + [c] {
      assert (t + [c])[..|t|] == t;
    }
    assert ([c] + s)[1..] == s;
  }

  /** ASCII case folding; every other character is kept. */
  function LowerChar(c: char): char {
    if 'A' <= c <= 'Z' then (c as int + 32) as char else c
  }

  /** `s.toLowerCase()` restricted to ASCII letters. */
  function ToLower(s: string): (r: string)
    ensures |r| == |s|
    ensures forall i :: 0 <= i < |s| ==> r[i] == LowerChar(s[i])
  {
    seq(|s|, i requires 0 <= i < |s| => LowerChar(s[i]))
  }

  predicate StartsWith(s: string, prefix: string) {
    |prefix| <= |s| && s[..|prefix|] == prefix
  }

  /** `sub` occurs in `s` starting at index `i`. */
  predicate OccursAt(s: string, sub: string, i: int) {
    0 <= i <= |s| - |sub| && s[i..i + |sub|] == sub
  }

  /** `s.includes(sub)`. */
  predicate Contains(s: string, sub: string) {
    exists i | 0 <= i <= |s| - |sub| :: OccursAt(s, sub, i)
  }

  /** The empty string occurs in every string. */
  lemma ContainsEmpty(s: string)
    ensures Contains(s, "")
  {
    assert OccursAt(s, "", 0);
  }

  /** `parts.join(sep)`. */
  function Join(parts: seq<string>, sep: string): string
    decreases |parts|
  {
    if |parts| == 0 then ""
    else if |parts| == 1 then parts[0]
    else parts[0] + sep + Join(parts[1..], sep)
  }

  /** Joining a longer first part is prefixing the join. */
  lemma JoinExtendFirst(x: string, parts: seq<string>, sep: string)
    requires |parts| >= 1
    ensures Join([x + parts[0]] + parts[1..], sep) == x + Join(parts, sep)
  {
    var ps := [x + parts[0]] + parts[1..];
    assert ps[1..] == parts[1..];
  }

  /** `.filter(Boolean)` on strings: the non-empty ones, in order. */
  function NonEmpty(parts: seq<string>): (r: seq<string>)
    ensures |r| <= |parts|
    ensures forall k :: 0 <= k < |r| ==> r[k] != "" && r[k] in parts
    decreases |parts|
  {
    if |parts| == 0 then []
    else if parts[0] == "" then NonEmpty(parts[1..])
    else [parts[0]] + NonEmpty(parts[1..])
  }

  /** Dropping empty strings works part by part. */
  lemma {:induction false} NonEmptyConcat(front: seq<string>, back: seq<string>)
    ensures NonEmpty(front + back) == NonEmpty(front) + NonEmpty(back)
    decreases |front|
  {
    if |front| > 0 {
      assert (front + back)[1..] == front[1..] + back;
      NonEmptyConcat(front[1..], back);
    } else {
      assert front + back == back;
    }
  }

  /** Dropping empty strings keeps exactly the non-empty ones: the result is
      empty only when every part was. */
  lemma {:induction false} NonEmptyIsEmpty(parts: seq<string>)
    ensures NonEmpty(parts) == [] <==> forall k :: 0 <= k < |parts| ==> parts[k] == ""
    decreases |parts|
  {
    if |parts| > 0 {
      NonEmptyIsEmpty(parts[1..]);
      assert forall k :: 1 <= k < |parts| ==> parts[k] == parts[1..][k - 1];
    }
  }

  /** Joining non-empty trimmed parts gives a trimmed string, which is
      empty exactly when there are no parts. */
  lemma {:induction false} JoinOfTrimmedParts(parts: seq<string>, sep: string)
    requires forall k :: 0 <= k < |parts| ==> parts[k] != "" && IsTrimmed(parts[k])
    ensures IsTrimmed(Join(parts, sep))
    ensures Join(parts, sep) == "" <==> parts == []
    ensures parts != [] ==> Join(parts, sep)[0] == parts[0][0]
    ensures parts != [] ==> Join(parts, sep)[|Join(parts, sep)| - 1] == parts[|parts| - 1][|parts[|parts| - 1]| - 1]
    decreases |parts|
  {
    if |parts| >= 2 {
      JoinOfTrimmedParts(parts[1..], sep);
      var tail := Join(parts[1..], sep);
      assert Join(parts, sep) == parts[0] + sep + tail;
      assert parts[1..][|parts[1..]| - 1] == parts[|parts| - 1];
    }
  }

  /** `s.split(c)`: the pieces between occurrences of `c`; there is always
      at least one piece and none contains `c`. */
  function Split(s: string, c: char): (r: seq<string>)
    ensures |r| >= 1
    ensures forall k :: 0 <= k < |r| ==> c !in r[k]
    decreases |s|
  {
    if |s| == 0 then [""]
    else
      var rest := Split(s[1..], c);
      if s[0] == c then [""] + rest
      else [[s[0]] + rest[0]] + rest[1..]
  }

  /** Joining the pieces of a split with the separator gives back the input. */
  lemma {:induction false} JoinSplit(s: string, c: char)
    ensures Join(Split(s, c), [c]) == s
    decreases |s|
  {
    if |s| > 0 {
      var rest := Split(s[1..], c);
      JoinSplit(s[1..], c);
      if s[0] == c {
        assert ([""] + rest)[1..] == rest;
      } else {
        JoinExtendFirst([s[0]], rest, [c]);
      }
    }
  }

  /** A string without the separator, followed by more text, splits into
      itself glued to the first piece of the rest. */
  lemma {:induction false} SplitPrefix(x: string, z: string, c: char)
    requires c !in x
    ensures Split(x + z, c) == [x + Split(z, c)[0]] + Split(z, c)[1..]
    decreases |x|
  {
    if |x| > 0 {
      assert (x + z)[1..] == x[1..] + z;
      assert x[0] in x && (x + z)[0] == x[0];
      assert forall ch :: ch in x[1..] ==> ch in x;
      SplitPrefix(x[1..], z, c);
      var rest := Split(x[1..] + z, c);
      assert rest[1..] == Split(z, c)[1..];
      assert [x[0]] + (x[1..] + Split(z, c)[0]) == x + Split(z, c)[0];
    } else {
      assert x + z == z;
      assert x + Split(z, c)[0] == Split(z, c)[0];
      assert Split(z, c) == [Split(z, c)[0]] + Split(z, c)[1..];
    }
  }

  /** Filtering out empty strings keeps every remaining part trimmed. */
  lemma {:induction false} NonEmptyKeepsTrimmed(parts: seq<string>)
    requires forall k :: 0 <= k < |parts| ==> IsTrimmed(parts[k])
    ensures forall k :: 0 <= k < |NonEmpty(parts)| ==> IsTrimmed(NonEmpty(parts)[k])
    decreases |parts|
  {
    if |parts| > 0 {
      NonEmptyKeepsTrimmed(parts[1..]);
    }
  }

  /** The join of the non-empty ones of some trimmed parts is trimmed, and
      empty exactly when every part is. */
  lemma JoinNonEmptyShape(parts: seq<string>, sep: string)
    requires forall k :: 0 <= k < |parts| ==> IsTrimmed(parts[k])
    ensures IsTrimmed(Join(NonEmpty(parts), sep))
    ensures Join(NonEmpty(parts), sep) == "" <==> forall k :: 0 <= k < |parts| ==> parts[k] == ""
  {
    NonEmptyKeepsTrimmed(parts);
    JoinOfTrimmedParts(NonEmpty(parts), sep);
    NonEmptyIsEmpty(parts);
  }

  /** Joining the non-empty ones of some trimmed parts gives a trimmed
      text that trimming leaves alone, empty exactly when every part is. */
  lemma JoinNonEmptyTrimmed(parts: seq<string>, sep: string)
    requires forall k :: 0 <= k < |parts| ==> IsTrimmed(parts[k])
    ensures IsTrimmed(Join(NonEmpty(parts), sep))
    ensures Trim(Join(NonEmpty(parts), sep)) == Join(NonEmpty(parts), sep)
    ensures Join(NonEmpty(parts), sep) == "" <==> forall k :: 0 <= k < |parts| ==> parts[k] == ""
  {
    JoinNonEmptyShape(parts, sep);
    TrimTrimmed(Join(NonEmpty(parts), sep));
  }

  /** A join begins with its first part. */
  lemma JoinStartsWithFirst(parts: seq<string>, sep: string)
    requires |parts| >= 1
    ensures StartsWith(Join(parts, sep), parts[0])
  {
  }

  /** A join ends with its last part. */
  lemma {:induction false} JoinEndsWithLast(parts: seq<string>, sep: string)
    requires |parts| >= 1
    ensures |parts[|parts| - 1]| <= |Join(parts, sep)|
    ensures Join(parts, sep)[|Join(parts, sep)| - |parts[|parts| - 1]|..] == parts[|parts| - 1]
    decreases |parts|
  {
    if |parts| >= 2 {
      JoinEndsWithLast(parts[1..], sep);
      var tail := Join(parts[1..], sep);
      var head := parts[0] + sep;
      assert Join(parts, sep) == head + tail;
      assert (head + tail)[|head + tail| - |parts[|parts| - 1]|..] == tail[|tail| - |parts[|parts| - 1]|..];
    }
  }

  /** Splitting a join of separator-free pieces gives back the pieces. */
  lemma {:induction false} SplitJoin(parts: seq<string>, c: char)
    requires |parts| >= 1
    requires forall k :: 0 <= k < |parts| ==> c !in parts[k]
    ensures Split(Join(parts, [c]), c) == parts
    decreases |parts|
  {
    if |parts| == 1 {
      SplitPrefix(parts[0], "", c);
      assert parts[0] + "" == parts[0];
    } else {
      var tail := Join(parts[1..], [c]);
      SplitJoin(parts[1..], c);
      assert Join(parts, [c]) == parts[0] + ([c] + tail);
      SplitPrefix(parts[0], [c] + tail, c);
      assert ([c] + tail)[1..] == tail;
      assert Split([c] + tail, c) == [""] + Split(tail, c);
      assert parts[0] + "" == parts[0];
      assert parts == [parts[0]] + parts[1..];
    }
  }

  /** `s.replace(/\r\n/g, '\n')`. */
  function ReplaceCrlf(s: string): (r: string)
    ensures |r| <= |s|
    decreases |s|
  {
    if |s| >= 2 && s[0] == '\r' && s[1] == '\n' then "\n" + ReplaceCrlf(s[2..])
    else if |s| == 0 then ""
    else [s[0]] + ReplaceCrlf(s[1..])
  }

  /** Text with no carriage return is left alone by the replacement. */
  lemma {:induction false} ReplaceCrlfNoCr(s: string)
    requires '\r' !in s
    ensures ReplaceCrlf(s) == s
    decreases |s|
  {
    if |s| > 0 {
      ReplaceCrlfNoCr(s[1..]);
    }
  }

  /** A carriage-return-free prefix passes through the replacement unchanged. */
  lemma {:induction false} ReplaceCrlfPrefix(x: string, y: string)
    requires '\r' !in x
    ensures ReplaceCrlf(x + y) == x + ReplaceCrlf(y)
    decreases |x|
  {
    if |x| > 0 {
      assert (x + y)[1..] == x[1..] + y;
      assert x[0] in x && (x + y)[0] == x[0];
      assert forall ch :: ch in x[1..] ==> ch in x;
      ReplaceCrlfPrefix(x[1..], y);
      assert [x[0]] + (x[1..] + ReplaceCrlf(y)) == x + ReplaceCrlf(y);
    } else {
      assert x + y == y;
    }
  }

  /** Each CRLF becomes a single LF. */
  lemma CrlfBecomesLf(x: string, y: string)
    requires '\r' !in x
    ensures ReplaceCrlf(x + "\r\n" + y) == x + "\n" + ReplaceCrlf(y)
  {
    assert x + "\r\n" + y == x + ("\r\n" + y);
    ReplaceCrlfPrefix(x, "\r\n" + y);
    assert ("\r\n" + y)[2..] == y;
  }

  /** A carriage return not followed by a line feed is kept. */
  lemma LoneCrKept(x: string, y: string)
    requires '\r' !in x
    requires |y| == 0 || y[0] != '\n'
    ensures ReplaceCrlf(x + (['\r'] + y)) == x + (['\r'] + ReplaceCrlf(y))
  {
    ReplaceCrlfPrefix(x, ['\r'] + y);
    ReplaceLoneCr(y);
  }

  /** The same at the start of the text. */
  lemma ReplaceLoneCr(y: string)
    requires |y| == 0 || y[0] != '\n'
    ensures ReplaceCrlf(['\r'] + y) == ['\r'] + ReplaceCrlf(y)
  {
    var rest := ['\r'] + y;
    assert rest[1..] == y;
    assert |rest| < 2 || rest[1] != '\n';
  }

  /** Lines joined with CRLF read, after the replacement, as lines joined with LF. */
  lemma {:induction false} CrlfJoinIsLfJoin(lines: seq<string>)
    requires forall k :: 0 <= k < |lines| ==> '\r' !in lines[k]
    ensures ReplaceCrlf(Join(lines, "\r\n")) == Join(lines, "\n")
    decreases |lines|
  {
    if |lines| == 1 {
      ReplaceCrlfNoCr(lines[0]);
    } else if |lines| >= 2 {
      CrlfJoinIsLfJoin(lines[1..]);
      var tail := Join(lines[1..], "\r\n");
      assert Join(lines, "\r\n") == lines[0] + ("\r\n" + tail);
      ReplaceCrlfPrefix(lines[0], "\r\n" + tail);
      assert ("\r\n" + tail)[2..] == tail;
      assert ReplaceCrlf("\r\n" + tail) == "\n" + ReplaceCrlf(tail);
    }
  }

  /** Lines joined with LF contain no carriage return when the lines do not. */
  lemma {:induction false} LfJoinHasNoCr(lines: seq<string>)
    requires forall k :: 0 <= k < |lines| ==> '\r' !in lines[k]
    ensures '\r' !in Join(lines, "\n")
    decreases |lines|
  {
    if |lines| >= 2 {
      LfJoinHasNoCr(lines[1..]);
    }
  }

  predicate IsDigit(c: char) {
    '0' <= c <= '9'
  }

  predicate AllDigits(s: string) {
    forall i :: 0 <= i < |s| ==> IsDigit(s[i])
  }

  function DigitChar(d: nat): (c: char)
    requires d < 10
    ensures IsDigit(c) && c as int - '0' as int == d
  {
    ('0' as int + d) as char
  }

  /** `String(n)` for a non-negative integer. */
  function NatToString(n: nat): (r: string)
    ensures |r| >= 1 && AllDigits(r)
    ensures n >= 10 <==> |r| >= 2
    decreases n
  {
    if n < 10 then [DigitChar(n)] else NatToString(n / 10) + [DigitChar(n % 10)]
  }

  /** The number a string of decimal digits denotes. */
  function DigitsValue(s: string): nat
    requires AllDigits(s)
    decreases |s|
  {
    if |s| == 0 then 0
    else DigitsValue(s[..|s| - 1]) * 10 + (s[|s| - 1] as int - '0' as int)
  }

  /** Reading back the decimal rendering gives the number. */
  lemma {:induction false} NatToStringRoundTrip(n: nat)
    ensures DigitsValue(NatToString(n)) == n
    decreases n
  {
    if n >= 10 {
      NatToStringRoundTrip(n / 10);
      var r := NatToString(n);
      assert r[..|r| - 1] == NatToString(n / 10);
    }
  }

  /** `String(i)` for any integer. */
  function IntToString(i: int): (r: string)
    ensures i >= 0 ==> r == NatToString(i)
    ensures i < 0 ==> r == "-" + NatToString(-i)
  {
    if i < 0 then "-" + NatToString(-i) else NatToString(i)
  }

  /** `s.padStart(2, '0')`. */
  function PadStart2(s: string): (r: string)
    ensures |s| >= 2 ==> r == s
    ensures |s| < 2 ==> |r| == 2 && r[2 - |s|..] == s && forall i :: 0 <= i < 2 - |s| ==> r[i] == '0'
  {
    if |s| >= 2 then s else if |s| == 1 then "0" + s else "00"
  }

  /** JavaScript `a % b` for a positive `b`: the remainder takes the sign
      of `a` (truncating division), unlike Dafny's `%`. */
  function JsRem(a: int, b: int): (r: int)
    requires b > 0
    ensures a >= 0 ==> 0 <= r < b
    ensures a < 0 ==> -b < r <= 0
  {
    if a >= 0 then a % b else -((-a) % b)
  }

  /** JavaScript's truncating quotient, `Math.trunc(a / b)`. */
  function TruncDiv(a: int, b: int): int
    requires b > 0
  {
    if a >= 0 then a / b else -((-a) / b)
  }

  /** The truncating quotient and `JsRem` recompose the dividend. */
  lemma JsRemDivision(a: int, b: int)
    requires b > 0
    ensures TruncDiv(a, b) * b + JsRem(a, b) == a
  {
    if a < 0 {
      var q := (-a) / b;
      assert -a == q * b + (-a) % b;
      assert TruncDiv(a, b) * b == -(q * b);
    }
  }
}
