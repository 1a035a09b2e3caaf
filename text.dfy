/**
 * String helpers used by the workflow-to-template transform: prefix and
 * substring tests, decimal rendering of non-negative integers (JavaScript's
 * `${n}` for the node ids and slot indices of the visual graph), and the
 * escaping of a text default before it is embedded in a `${id:default}`
 * placeholder.
 */
module Text {

  /** `s.startsWith(p)` */
  predicate StartsWith(s: string, p: string) {
    |p| <= |s| && s[..|p|] == p
  }

  /** A common prefix can be cancelled. */
  lemma AppendCancel(base: string, x: string, y: string)
    requires base + x == base + y
    ensures x == y
  {
    assert x == (base + x)[|base|..];
    assert y == (base + y)[|base|..];
  }

  /** A prefix stays a prefix when text is appended. */
  lemma StartsWithAppend(s: string, x: string, p: string)
    requires StartsWith(s, p)
    ensures StartsWith(s + x, p)
  {
    assert (s + x)[..|p|] == s[..|p|];
  }

  lemma AppendDiffers(base: string, x: string, y: string)
    requires x != y
    ensures base + x != base + y
  {
    assert x == (base + x)[|base|..];
    assert y == (base + y)[|base|..];
  }

  /** `s.includes(p)` */
  predicate Contains(s: string, p: string)
    decreases |s|
  {
    StartsWith(s, p) || (|s| > 0 && Contains(s[1..], p))
  }

  /** `s.substring(n)`: JavaScript clamps an index past the end to the end. */
  /** Text found in `s` is still found once more text is appended. */
  lemma {:induction false} ContainsAppend(s: string, x: string, p: string)
    requires Contains(s, p)
    ensures Contains(s + x, p)
    decreases |s|
  {
    if StartsWith(s, p) {
      StartsWithAppend(s, x, p);
    } else {
      assert (s + x)[1..] == s[1..] + x;
      ContainsAppend(s[1..], x, p);
    }
  }

  function Drop(s: string, n: nat): string {
    if n <= |s| then s[n..] else ""
  }

  function DigitChar(d: nat): char
    requires d < 10
  {
    "0123456789"[d]
  }

  /** `${n}` for a non-negative integer. */
  function Decimal(n: nat): string
    decreases n
  {
    if n < 10 then [DigitChar(n)] else Decimal(n / 10) + [DigitChar(n % 10)]
  }

  /** True iff the two-character sequence `${` occurs somewhere in `s`. */
  predicate HasDollarBrace(s: string) {
    exists i :: 0 <= i < |s| - 1 && s[i] == '$' && s[i + 1] == '{'
  }

  /** `s.replaceAll('${', '(')`: a left-to-right scan for non-overlapping matches. */
  function ReplaceDollarBrace(s: string): (r: string)
    ensures !HasDollarBrace(r)
    ensures |r| > 0 ==> |s| > 0 && (r[0] == '(' || r[0] == s[0])
    ensures |r| > 0 && r[0] == '(' ==> StartsWith(s, "${") || s[0] == '('
    decreases |s|
  {
    if |s| == 0 then ""
    else if |s| >= 2 && s[0] == '$' && s[1] == '{' then "(" + ReplaceDollarBrace(s[2..])
    else [s[0]] + ReplaceDollarBrace(s[1..])
  }

  /** `s.replaceAll('}', ')')` */
  function ReplaceCloseBrace(s: string): (r: string)
    ensures |r| == |s|
    ensures forall i :: 0 <= i < |s| ==> r[i] == if s[i] == '}' then ')' else s[i]
    decreases |s|
  {
    if |s| == 0 then "" else [if s[0] == '}' then ')' else s[0]] + ReplaceCloseBrace(s[1..])
  }

  /**
   * The escaping applied to a text default (lines 240 and 272): every `${`
   * becomes `(`, then every `}` becomes `)`.  The result cannot close a
   * placeholder early nor open a nested one.
   */
  function Escape(s: string): (r: string)
    ensures '}' !in r
    ensures !HasDollarBrace(r)
  {
    var once := ReplaceDollarBrace(s);
    var r := ReplaceCloseBrace(once);
    assert !HasDollarBrace(r) by {
      forall i | 0 <= i < |r| - 1 ensures !(r[i] == '$' && r[i + 1] == '{') {
        assert !(once[i] == '$' && once[i + 1] == '{');
      }
    }
    r
  }

  /** The inverse mapping: `(` back to `${` and `)` back to `}`. */
  function Unescape(s: string): string
    decreases |s|
  {
    if |s| == 0 then ""
    else (if s[0] == '(' then "${" else if s[0] == ')' then "}" else [s[0]]) + Unescape(s[1..])
  }

  lemma {:induction false} UnescapeCons(c: char, s: string)
    ensures Unescape([c] + s) == (if c == '(' then "${" else if c == ')' then "}" else [c]) + Unescape(s)
  {
    assert ([c] + s)[0] == c;
    assert ([c] + s)[1..] == s;
  }

  lemma {:induction false} CloseBraceCons(c: char, s: string)
    ensures ReplaceCloseBrace([c] + s) == [if c == '}' then ')' else c] + ReplaceCloseBrace(s)
  {
    assert ([c] + s)[1..] == s;
  }

  /**
   * A default without parentheses is recovered exactly from its escaped form:
   * the escaping loses nothing but the distinction between `(` / `)` and
   * `${` / `}` in the original text.
   */
  lemma {:induction false} EscapeRoundTrip(s: string)
    requires '(' !in s && ')' !in s
    ensures Unescape(Escape(s)) == s
  {
    RoundTripOnce(s);
  }

  lemma {:induction false} RoundTripOnce(s: string)
    requires '(' !in s && ')' !in s
    ensures Unescape(ReplaceCloseBrace(ReplaceDollarBrace(s))) == s
    decreases |s|
  {
    if |s| == 0 {
    } else if |s| >= 2 && s[0] == '$' && s[1] == '{' {
      var rest := ReplaceDollarBrace(s[2..]);
      assert ReplaceDollarBrace(s) == ['('] + rest;
      CloseBraceCons('(', rest);
      UnescapeCons('(', ReplaceCloseBrace(rest));
      RoundTripOnce(s[2..]);
      assert s == "${" + s[2..];
    } else {
      var rest := ReplaceDollarBrace(s[1..]);
      assert ReplaceDollarBrace(s) == [s[0]] + rest;
      CloseBraceCons(s[0], rest);
      var c := if s[0] == '}' then ')' else s[0];
      UnescapeCons(c, ReplaceCloseBrace(rest));
      RoundTripOnce(s[1..]);
      assert s == [s[0]] + s[1..];
    }
  }

  /** Without the no-parenthesis condition the round trip fails: `(` comes back as `${`. */
  lemma ParenthesisIsNotRecovered()
    ensures Escape("(") == "("
    ensures Unescape(Escape("(")) == "${"
  {
    assert ReplaceDollarBrace("(") == "(" + ReplaceDollarBrace("");
    assert ReplaceCloseBrace("(") == "(";
    assert Unescape("(") == "${" + Unescape("");
  }
}
