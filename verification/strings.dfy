/** The string-building primitives both Rust emitters rely on, modelled on
    Go's `strings` package and `fmt`'s `%d` verb: concatenation of a list,
    `strings.Repeat`, `strings.Join`, `strings.HasSuffix`, decimal rendering
    of an unsigned integer and `strings.ReplaceAll(s, "\"", "\\\"")`. */
module Strings {

  /** The concatenation of `parts`, in order (a `strings.Builder` loop). */
  function Concat(parts: seq<string>): (r: string)
    ensures |parts| == 0 ==> r == ""
    ensures |parts| == 1 ==> r == parts[0]
  {
    if |parts| == 0 then "" else parts[0] + Concat(parts[1..])
  }

  /** Building a text piecewise does not depend on where it is split. */
  lemma {:induction false} ConcatAppend(a: seq<string>, b: seq<string>)
    ensures Concat(a + b) == Concat(a) + Concat(b)
  {
    if |a| == 0 {
      assert a + b == b;
    } else {
      assert (a + b)[1..] == a[1..] + b;
      ConcatAppend(a[1..], b);
    }
  }

  /** Appending one more part to a text appends that part's text. */
  lemma {:induction false} ConcatSnoc(prefix: string, parts: seq<string>, last: string)
    ensures prefix + Concat(parts + [last]) == prefix + Concat(parts) + last
  {
    ConcatAppend(parts, [last]);
  }

  /** `strings.Repeat("    ", level)`: the indentation unit of the current
      emitter, four spaces, repeated `level` times. */
  function Indent(level: nat): (r: string)
    ensures |r| == 4 * level
    ensures forall i | 0 <= i < |r| :: r[i] == ' '
  {
    if level == 0 then "" else "    " + Indent(level - 1)
  }

  /** `strings.Join(parts, sep)`. */
  function Join(parts: seq<string>, sep: string): string
  {
    if |parts| == 0 then ""
    else if |parts| == 1 then parts[0]
    else parts[0] + sep + Join(parts[1..], sep)
  }

  /** Each part written followed by a newline, in order: a loop of
      `sb.WriteString(part); sb.WriteString("\n")`. */
  function Lines(parts: seq<string>): (r: string)
    ensures |parts| == 0 ==> r == ""
  {
    if |parts| == 0 then "" else parts[0] + "\n" + Lines(parts[1..])
  }

  /** Newline-terminated parts followed by a last piece are the parts and
      that piece joined by newlines: line `k` of the text is part `k`. */
  lemma {:induction false} LinesJoin(parts: seq<string>, last: string)
    ensures Lines(parts) + last == Join(parts + [last], "\n")
  {
    if |parts| == 0 {
      assert parts + [last] == [last];
    } else {
      LinesJoin(parts[1..], last);
      assert (parts + [last])[1..] == parts[1..] + [last];
    }
  }

  /** Newline-terminated parts can be written in two runs. */
  lemma {:induction false} LinesSnoc(before: string, parts: seq<string>, last: string, after: string)
    ensures before + Lines(parts + [last]) + after == before + Lines(parts) + last + "\n" + after
  {
    LinesAppend(parts, [last]);
    assert Lines([last]) == last + "\n" + Lines([]);
  }

  lemma {:induction false} LinesAppend(a: seq<string>, b: seq<string>)
    ensures Lines(a + b) == Lines(a) + Lines(b)
  {
    if |a| == 0 {
      assert a + b == b;
    } else {
      assert (a + b)[1..] == a[1..] + b;
      LinesAppend(a[1..], b);
    }
  }

  /** `strings.HasSuffix(s, suffix)`. */
  predicate HasSuffix(s: string, suffix: string)
  {
    |suffix| <= |s| && s[|s| - |suffix|..] == suffix
  }

  /** Any text ending in `suffix` has it as a suffix. */
  lemma HasSuffixOfAppend(prefix: string, suffix: string)
    ensures HasSuffix(prefix + suffix, suffix)
  {
    assert (prefix + suffix)[|prefix|..] == suffix;
  }

  predicate IsDigit(c: char)
  {
    '0' <= c <= '9'
  }

  predicate AllDigits(s: string)
  {
    forall i | 0 <= i < |s| :: IsDigit(s[i])
  }

  function DigitChar(d: nat): (c: char)
    requires d < 10
    ensures IsDigit(c)
  {
    "0123456789"[d]
  }

  function DigitValue(c: char): (d: nat)
    requires IsDigit(c)
    ensures d < 10
  {
    (c as int) - ('0' as int)
  }

  /** Go's `%d` rendering of an unsigned integer: decimal digits, most
      significant first, with no sign and no leading zero. */
  function NatToString(n: nat): (r: string)
    ensures |r| > 0
    ensures AllDigits(r)
    ensures r[0] == '0' ==> n == 0
    ensures n == 0 ==> r == "0"
  {
    if n < 10 then [DigitChar(n)] else NatToString(n / 10) + [DigitChar(n % 10)]
  }

  /** Reads a run of decimal digits back as a number. */
  function ParseDecimal(s: string): nat
    requires AllDigits(s)
  {
    if |s| == 0 then 0 else 10 * ParseDecimal(s[..|s| - 1]) + DigitValue(s[|s| - 1])
  }

  lemma DigitRoundTrip(d: nat)
    requires d < 10
    ensures DigitValue(DigitChar(d)) == d
  {
  }

  /** The decimal rendering loses nothing: reading it back gives the number. */
  lemma {:induction false} ParseNatToString(n: nat)
    ensures ParseDecimal(NatToString(n)) == n
  {
    var s := NatToString(n);
    if n < 10 {
      DigitRoundTrip(n);
      assert s[..|s| - 1] == "";
    } else {
      ParseNatToString(n / 10);
      DigitRoundTrip(n % 10);
      assert s[..|s| - 1] == NatToString(n / 10);
    }
  }

  /** `strings.ReplaceAll(s, "\"", "\\\"")`: a backslash before every quote. */
  function Escape(s: string): (r: string)
    ensures |r| >= |s|
  {
    if |s| == 0 then ""
    else (if s[0] == '"' then "\\\"" else [s[0]]) + Escape(s[1..])
  }

  /** `strings.ReplaceAll(s, "\\\"", "\"")`: the leftmost, non-overlapping
      replacement of each backslash-quote pair by a quote. */
  function Unescape(s: string): string
  {
    if |s| == 0 then ""
    else if |s| >= 2 && s[0] == '\\' && s[1] == '"' then "\"" + Unescape(s[2..])
    else [s[0]] + Unescape(s[1..])
  }

  /** An escaped text never begins with a bare quote. */
  lemma EscapeNoLeadingQuote(s: string)
    requires |s| > 0
    ensures Escape(s)[0] != '"'
  {
  }

  /** Undoing the escape recovers the original text exactly. */
  lemma {:induction false} UnescapeEscape(s: string)
    ensures Unescape(Escape(s)) == s
  {
    if |s| > 0 {
      var tail := Escape(s[1..]);
      UnescapeEscape(s[1..]);
      if s[0] == '"' {
        assert Escape(s) == "\\\"" + tail;
        assert (Escape(s))[2..] == tail;
      } else {
        assert Escape(s) == [s[0]] + tail;
        assert (Escape(s))[1..] == tail;
        if s[0] == '\\' && |tail| > 0 {
          EscapeNoLeadingQuote(s[1..]);
        }
      }
    }
  }
}
