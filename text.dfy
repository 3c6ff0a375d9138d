/**
 * String operations shared by the backend (Python) and the frontend (TypeScript):
 * whitespace stripping, lower-casing, splitting on a separator character,
 * joining, and decimal digits.  Strings are sequences of characters.
 */
module Text {

  /** Which runtime's notion of whitespace applies: the backend's Python or the frontend's JavaScript. */
  datatype Runtime = Python | JavaScript

  /** The characters removed by Python's `str.strip()` (those for which `str.isspace()` holds), and the
      characters removed by JavaScript's `trim()` and matched by the regular-expression class `\s`
      (ECMAScript's WhiteSpace and LineTerminator).  Both include the ASCII controls TAB, LF, VT, FF
      and CR and the Unicode space separators; only Python counts the information separators
      U+001C to U+001F and NEXT LINE, only JavaScript counts the byte-order mark. */
  predicate IsSpace(c: char, rt: Runtime)
  {
    c == ' ' || c == '\t' || c == '\n' || c == '\r' || c == '\U{000B}' || c == '\U{000C}'
    || c == '\U{00A0}' || c == '\U{1680}' || ('\U{2000}' <= c <= '\U{200A}')
    || c == '\U{2028}' || c == '\U{2029}' || c == '\U{202F}' || c == '\U{205F}' || c == '\U{3000}'
    || (rt == Python && (('\U{001C}' <= c <= '\U{001F}') || c == '\U{0085}'))
    || (rt == JavaScript && c == '\U{FEFF}')
  }

  predicate AllSpace(s: string, rt: Runtime)
  {
    forall i :: 0 <= i < |s| ==> IsSpace(s[i], rt)
  }

  /** No leading and no trailing whitespace. */
  predicate Stripped(s: string, rt: Runtime)
  {
    s == [] || (!IsSpace(s[0], rt) && !IsSpace(s[|s| - 1], rt))
  }

  function TrimLeft(s: string, rt: Runtime): (r: string)
    ensures |r| <= |s|
    ensures r == [] || !IsSpace(r[0], rt)
  {
    if s != [] && IsSpace(s[0], rt) then TrimLeft(s[1..], rt) else s
  }

  /** `TrimLeft` removes exactly the leading run of whitespace. */
  lemma {:induction false} TrimLeftSuffix(s: string, rt: Runtime)
    ensures var r := TrimLeft(s, rt); r == s[|s| - |r|..] && AllSpace(s[..|s| - |r|], rt)
  {
    if s != [] && IsSpace(s[0], rt) {
      TrimLeftSuffix(s[1..], rt);
    }
  }

  function TrimRight(s: string, rt: Runtime): (r: string)
    ensures |r| <= |s|
    ensures r == [] || !IsSpace(r[|r| - 1], rt)
  {
    if s != [] && IsSpace(s[|s| - 1], rt) then TrimRight(s[..|s| - 1], rt) else s
  }

  /** `TrimRight` removes exactly the trailing run of whitespace. */
  lemma {:induction false} TrimRightPrefix(s: string, rt: Runtime)
    ensures var r := TrimRight(s, rt); r == s[..|r|] && AllSpace(s[|r|..], rt)
  {
    if s != [] && IsSpace(s[|s| - 1], rt) {
      TrimRightPrefix(s[..|s| - 1], rt);
    }
  }

  /** `s.strip()` / `s.trim()`: the text between the leading and the trailing run of whitespace. */
  function Strip(s: string, rt: Runtime): (r: string)
    ensures Stripped(r, rt)
    ensures |r| <= |s|
  {
    var t := TrimLeft(s, rt);
    var r := TrimRight(t, rt);
    TrimRightPrefix(t, rt);
    assert r != [] ==> r[0] == t[0];
    r
  }

  lemma {:induction false} TrimLeftPad(a: string, x: string, rt: Runtime)
    requires AllSpace(a, rt)
    ensures TrimLeft(a + x, rt) == TrimLeft(x, rt)
  {
    if a != [] {
      assert (a + x)[1..] == a[1..] + x;
      TrimLeftPad(a[1..], x, rt);
    } else {
      assert a + x == x;
    }
  }

  lemma {:induction false} TrimRightPad(x: string, b: string, rt: Runtime)
    requires AllSpace(b, rt)
    ensures TrimRight(x + b, rt) == TrimRight(x, rt)
  {
    if b != [] {
      assert (x + b)[..|x + b| - 1] == x + b[..|b| - 1];
      TrimRightPad(x, b[..|b| - 1], rt);
    } else {
      assert x + b == x;
    }
  }

  lemma {:induction false} TrimLeftAppend(x: string, b: string, rt: Runtime)
    requires TrimLeft(x, rt) != []
    ensures TrimLeft(x + b, rt) == TrimLeft(x, rt) + b
  {
    if IsSpace(x[0], rt) {
      assert (x + b)[1..] == x[1..] + b;
      TrimLeftAppend(x[1..], b, rt);
    }
  }

  /** Stripping ignores any whitespace padding around a string. */
  lemma {:induction false} StripPadded(a: string, s: string, b: string, rt: Runtime)
    requires AllSpace(a, rt) && AllSpace(b, rt)
    ensures Strip(a + s + b, rt) == Strip(s, rt)
  {
    assert a + s + b == a + (s + b);
    TrimLeftPad(a, s + b, rt);
    if TrimLeft(s, rt) != [] {
      TrimLeftAppend(s, b, rt);
      TrimRightPad(TrimLeft(s, rt), b, rt);
    } else {
      TrimLeftSuffix(s, rt);
      assert AllSpace(s + b, rt);
      assert s + b == (s + b) + [];
      TrimLeftPad(s + b, [], rt);
    }
  }

  /** A stripped string is its own strip. */
  lemma StripOfStripped(s: string, rt: Runtime)
    requires Stripped(s, rt)
    ensures Strip(s, rt) == s
  {
    StripPadded([], s, [], rt);
    assert [] + s + [] == s;
  }

  function LowerChar(c: char): char
  {
    if 'A' <= c <= 'Z' then (c as int + 32) as char else c
  }

  /** `s.lower()` over ASCII letters. */
  function Lower(s: string): (r: string)
    ensures |r| == |s|
    ensures forall i :: 0 <= i < |s| ==> r[i] == LowerChar(s[i])
  {
    if s == [] then [] else [LowerChar(s[0])] + Lower(s[1..])
  }

  lemma LowerOfLower(s: string)
    ensures Lower(Lower(s)) == Lower(s)
  {
  }

  predicate StartsWith(s: string, prefix: string)
  {
    |prefix| <= |s| && s[..|prefix|] == prefix
  }

  /** Index of the first occurrence of `c` in `s`. */
  function IndexOf(s: string, c: char): (k: nat)
    requires c in s
    ensures k < |s| && s[k] == c && c !in s[..k]
  {
    if s[0] == c then 0 else 1 + IndexOf(s[1..], c)
  }

  /** `parts` joined with `sep` between consecutive parts (`sep.join(parts)`, `parts.join(sep)`). */
  function Join(parts: seq<string>, sep: string): string
  {
    if parts == [] then []
    else if |parts| == 1 then parts[0]
    else parts[0] + sep + Join(parts[1..], sep)
  }

  /** `s.split(sep)` in Python and JavaScript: the maximal separator-free pieces, in order,
      always at least one (an empty string splits into one empty piece). */
  function Split(s: string, sep: char): (parts: seq<string>)
    ensures |parts| >= 1
    ensures forall i :: 0 <= i < |parts| ==> sep !in parts[i]
    decreases |s|
  {
    if sep !in s then [s]
    else
      var k := IndexOf(s, sep);
      [s[..k]] + Split(s[k + 1..], sep)
  }

  /** Joining the pieces with the separator gives the string back. */
  lemma {:induction false} SplitJoin(s: string, sep: char)
    ensures Join(Split(s, sep), [sep]) == s
    decreases |s|
  {
    if sep in s {
      var k := IndexOf(s, sep);
      var rest := Split(s[k + 1..], sep);
      SplitJoin(s[k + 1..], sep);
      assert ([s[..k]] + rest)[1..] == rest;
      assert s == s[..k] + [sep] + s[k + 1..];
    }
  }

  /** Splitting a concatenation: every piece of `x` but the last is a piece of `x + y`,
      and the last piece of `x` is continued by `y`.  This is what makes line framing
      independent of where chunk boundaries fall. */
  lemma {:induction false} SplitAppend(x: string, y: string, sep: char)
    ensures var px := Split(x, sep);
      Split(x + y, sep) == px[..|px| - 1] + Split(px[|px| - 1] + y, sep)
    decreases |x|, 1
  {
    if sep in x {
      SplitAppendCut(x, y, sep);
    } else {
      var px := Split(x, sep);
      assert px == [x];
      assert px[..|px| - 1] + Split(px[|px| - 1] + y, sep) == Split(x + y, sep);
    }
  }

  /** `SplitAppend` when `x` holds a separator: the first piece is common, and the rest is by induction. */
  lemma {:induction false} SplitAppendCut(x: string, y: string, sep: char)
    requires sep in x
    ensures var px := Split(x, sep);
      Split(x + y, sep) == px[..|px| - 1] + Split(px[|px| - 1] + y, sep)
    decreases |x|, 0
  {
    var px := Split(x, sep);
    var k := IndexOf(x, sep);
    var pr := Split(x[k + 1..], sep);
    assert x == x[..k] + [sep] + x[k + 1..];
    assert x + y == x[..k] + [sep] + (x[k + 1..] + y);
    SplitAfterPrefix(x[..k], x[k + 1..], sep);
    SplitAfterPrefix(x[..k], x[k + 1..] + y, sep);
    SplitAppend(x[k + 1..], y, sep);
    ConsFront(x[..k], pr);
    AppendAssoc([x[..k]], pr[..|pr| - 1], Split(pr[|pr| - 1] + y, sep));
  }

  /** The front and the last element of a sequence with one more element in front. */
  /** Cutting the first line off a buffer that holds a separator keeps the pieces of the whole text. */
  lemma SplitFirstLine(handled: seq<string>, buffer: string, sep: char)
    requires sep in buffer
    ensures var k := IndexOf(buffer, sep);
      handled + Split(buffer, sep) == (handled + [buffer[..k]]) + Split(buffer[k + 1..], sep)
  {
    var k := IndexOf(buffer, sep);
    assert buffer == buffer[..k] + [sep] + buffer[k + 1..];
    SplitAfterPrefix(buffer[..k], buffer[k + 1..], sep);
  }

  /** Appending a chunk to the delivered text continues its last, unterminated piece. */
  lemma FramingStep(text: string, content: string, handled: seq<string>, buffer: string, sep: char)
    requires Split(text, sep) == handled + [buffer]
    ensures Split(text + content, sep) == handled + Split(buffer + content, sep)
  {
    SplitAppend(text, content, sep);
    var px := Split(text, sep);
    assert px[..|px| - 1] == handled;
  }

  lemma ConsFront<T>(a: T, p: seq<T>)
    requires |p| >= 1
    ensures var q := [a] + p; q[..|q| - 1] == [a] + p[..|p| - 1] && q[|q| - 1] == p[|p| - 1]
  {
  }

  lemma AppendAssoc<T>(a: seq<T>, b: seq<T>, c: seq<T>)
    ensures a + b + c == a + (b + c)
  {
  }

  lemma IndexOfUnique(s: string, c: char, k: nat)
    requires k < |s| && s[k] == c && c !in s[..k]
    ensures IndexOf(s, c) == k
  {
  }

  /** A separator right after a separator-free prefix ends the first piece. */
  lemma SplitAfterPrefix(a: string, b: string, sep: char)
    requires sep !in a
    ensures Split(a + [sep] + b, sep) == [a] + Split(b, sep)
  {
    var s := a + [sep] + b;
    assert s[..|a|] == a;
    IndexOfUnique(s, sep, |a|);
    assert s[|a| + 1..] == b;
  }

  /** The pieces of a string ending with the separator: the last piece is empty. */
  lemma SplitOfTerminated(a: string, sep: char)
    ensures Split(a + [sep], sep) == Split(a, sep) + [[]]
  {
    SplitAppend(a, [sep], sep);
    var pa := Split(a, sep);
    var last := pa[|pa| - 1];
    SplitAfterPrefix(last, [], sep);
    assert last + [sep] + [] == last + [sep];
    assert Split([], sep) == [[]];
    AppendAssoc(pa[..|pa| - 1], [last], [[]]);
    FrontLast(pa);
  }

  /** The first piece of `w`, a separator and more is `w` itself exactly when `w` holds no separator. */
  lemma FirstPieceExact(w: string, rest: string, sep: char)
    ensures Split(w + [sep] + rest, sep)[0] == w <==> sep !in w
  {
    var s := w + [sep] + rest;
    if sep !in w {
      SplitAfterPrefix(w, rest, sep);
    } else {
      var k := IndexOf(s, sep);
      var j :| 0 <= j < |w| && w[j] == sep;
      assert s[j] == sep;
      assert |Split(s, sep)[0]| == k < |w|;
    }
  }

  lemma FrontLast<T>(p: seq<T>)
    requires |p| >= 1
    ensures p[..|p| - 1] + [p[|p| - 1]] == p
  {
  }

  /** Every piece stripped, and the pieces that are then empty dropped:
      `[p.strip() for p in parts if p.strip()]`. */
  function StripNonBlank(parts: seq<string>, rt: Runtime): (r: seq<string>)
    ensures forall i :: 0 <= i < |r| ==> r[i] != [] && Stripped(r[i], rt)
    ensures |r| <= |parts|
  {
    if parts == [] then []
    else
      var p := Strip(parts[0], rt);
      (if p == [] then [] else [p]) + StripNonBlank(parts[1..], rt)
  }

  lemma StripNonBlankAppend(a: seq<string>, b: seq<string>, rt: Runtime)
    ensures StripNonBlank(a + b, rt) == StripNonBlank(a, rt) + StripNonBlank(b, rt)
  {
    if a != [] {
      assert (a + b)[1..] == a[1..] + b;
      StripNonBlankAppend(a[1..], b, rt);
    } else {
      assert a + b == b;
    }
  }

  /** The pieces `StripNonBlank` keeps are exactly the non-blank stripped parts. */
  lemma {:induction false} StripNonBlankMembers(parts: seq<string>, x: string, rt: Runtime)
    ensures x in StripNonBlank(parts, rt) <==> x != [] && exists i :: 0 <= i < |parts| && Strip(parts[i], rt) == x
  {
    if parts != [] {
      StripNonBlankMembers(parts[1..], x, rt);
      if exists i :: 0 <= i < |parts| && Strip(parts[i], rt) == x {
        var i :| 0 <= i < |parts| && Strip(parts[i], rt) == x;
        if i > 0 {
          assert Strip(parts[1..][i - 1], rt) == x;
        }
      }
      if exists i :: 0 <= i < |parts| - 1 && Strip(parts[1..][i], rt) == x {
        var i :| 0 <= i < |parts| - 1 && Strip(parts[1..][i], rt) == x;
        assert Strip(parts[i + 1], rt) == x;
      }
    }
  }

  /** The non-blank, stripped pieces of `s` between occurrences of `sep`. */
  function SplitTrimmed(s: string, sep: char, rt: Runtime): (r: seq<string>)
    ensures forall i :: 0 <= i < |r| ==> r[i] != [] && Stripped(r[i], rt) && sep !in r[i]
  {
    var parts := Split(s, sep);
    var r := StripNonBlank(parts, rt);
    StripNonBlankInside(parts, sep, rt);
    r
  }

  lemma StripNonBlankInside(parts: seq<string>, sep: char, rt: Runtime)
    requires forall i :: 0 <= i < |parts| ==> sep !in parts[i]
    ensures forall i :: 0 <= i < |StripNonBlank(parts, rt)| ==> sep !in StripNonBlank(parts, rt)[i]
  {
    if parts != [] {
      StripNonBlankInside(parts[1..], sep, rt);
      StripKeepsOut(parts[0], sep, rt);
    }
  }

  lemma StripKeepsOut(s: string, c: char, rt: Runtime)
    requires c !in s
    ensures c !in Strip(s, rt)
  {
    TrimLeftSuffix(s, rt);
    TrimRightPrefix(TrimLeft(s, rt), rt);
  }

  // ---- decimal digits ----

  predicate IsDigit(c: char)
  {
    '0' <= c <= '9'
  }

  predicate AllDigits(s: string)
  {
    forall i :: 0 <= i < |s| ==> IsDigit(s[i])
  }

  function DigitChar(d: nat): char
    requires d < 10
  {
    ('0' as int + d) as char
  }

  /** The decimal representation of `n` (`String(n)`, `str(n)`). */
  function Digits(n: nat): (s: string)
    ensures s != [] && AllDigits(s)
  {
    if n < 10 then [DigitChar(n)] else Digits(n / 10) + [DigitChar(n % 10)]
  }

  /** The value of a string of decimal digits (`parseInt` of a `\d+` match). */
  function DigitsValue(s: string): nat
    requires AllDigits(s)
  {
    if s == [] then 0 else 10 * DigitsValue(s[..|s| - 1]) + (s[|s| - 1] as int - '0' as int)
  }

  lemma {:induction false} DigitsRoundTrip(n: nat)
    ensures DigitsValue(Digits(n)) == n
  {
    if n >= 10 {
      var s := Digits(n);
      assert s[..|s| - 1] == Digits(n / 10);
      DigitsRoundTrip(n / 10);
    }
  }

  /** The characters after the last `-` of `s` (all of `s` when it has none). */
  function AfterLastDash(s: string): (r: string)
    ensures '-' !in r
  {
    if s == [] || s[|s| - 1] == '-' then [] else AfterLastDash(s[..|s| - 1]) + [s[|s| - 1]]
  }

  lemma {:induction false} AfterLastDashOf(a: string, d: string)
    requires '-' !in d
    ensures AfterLastDash(a + "-" + d) == d
  {
    if d != [] {
      var s := a + "-" + d;
      assert s[..|s| - 1] == a + "-" + d[..|d| - 1];
      AfterLastDashOf(a, d[..|d| - 1]);
    } else {
      assert a + "-" + d == a + "-";
    }
  }

  /** A decimal number after the last `-` is recovered exactly: equal strings ending `-<digits>` carry equal numbers. */
  lemma DashDigitsUnique(a: string, b: string, m: nat, n: nat)
    requires a + "-" + Digits(m) == b + "-" + Digits(n)
    ensures m == n
  {
    AfterLastDashOf(a, Digits(m));
    AfterLastDashOf(b, Digits(n));
    DigitsRoundTrip(m);
    DigitsRoundTrip(n);
  }
}
