/**
 * QuoteString: wrap a value's text in double quotes, escaping embedded
 * double quotes with a backslash and nothing else.
 */
module Quoting {

  /** The number of `"` characters in `s`. */
  function QuoteCount(s: string): (n: nat)
    ensures n <= |s|
    ensures n == 0 <==> forall i :: 0 <= i < |s| ==> s[i] != '"'
  {
    if s == [] then 0 else (if s[0] == '"' then 1 else 0) + QuoteCount(s[1..])
  }

  /** The character at `i` is not a `"`, or is one preceded by a backslash. */
  predicate EscapedAt(t: string, i: int)
    requires 0 <= i < |t|
  {
    t[i] == '"' ==> 0 < i && t[i - 1] == '\\'
  }

  /** Every `"` in `t` is preceded by a backslash. */
  predicate AllEscaped(t: string) {
    forall i :: 0 <= i < |t| ==> EscapedAt(t, i)
  }

  /**
   * The `replaceAll` step of QuoteString: each `"` becomes the two
   * characters `\"`, every other character (backslashes and control
   * characters included) is copied unchanged.
   */
  function Escape(s: string): (r: string)
    ensures |r| == |s| + QuoteCount(s)
    ensures AllEscaped(r)
    ensures QuoteCount(s) == 0 ==> r == s
  {
    if s == [] then []
    else
      var head, tail := if s[0] == '"' then ['\\', '"'] else [s[0]], Escape(s[1..]);
      var r := head + tail;
      assert AllEscaped(r) by {
        forall i | 0 <= i < |r| ensures EscapedAt(r, i) {
          if i >= |head| {
            assert r[i] == tail[i - |head|];
            assert EscapedAt(tail, i - |head|);
          }
        }
      }
      r
  }

  /**
   * Reads back an escaped text: `\"` becomes `"`, every other character is
   * kept. It is the inverse of Escape (lemma UnescapeEscape).
   */
  function Unescape(t: string): string
    decreases |t|
  {
    if t == [] then []
    else if |t| >= 2 && t[0] == '\\' && t[1] == '"' then ['"'] + Unescape(t[2..])
    else [t[0]] + Unescape(t[1..])
  }

  lemma {:induction false} UnescapeEscape(s: string)
    ensures Unescape(Escape(s)) == s
  {
    if s != [] {
      var rest := Escape(s[1..]);
      UnescapeEscape(s[1..]);
      if s[0] == '"' {
        assert Escape(s) == ['\\', '"'] + rest;
        assert Escape(s)[2..] == rest;
      } else {
        assert Escape(s) == [s[0]] + rest;
        assert Escape(s)[1..] == rest;
        assert |rest| > 0 ==> rest[0] != '"';
      }
    }
  }

  /**
   * QuoteString: the text between two double quotes, with embedded quotes
   * escaped. Every embedded quote is preceded by a backslash, the text
   * grows by one character per quote, and text without quotes is only
   * wrapped.
   */
  function QuoteString(s: string): (r: string)
    ensures |r| == |s| + 2 + QuoteCount(s)
    ensures r[0] == '"' && r[|r| - 1] == '"'
    ensures AllEscaped(r[1..|r| - 1])
    ensures QuoteCount(s) == 0 ==> r == "\"" + s + "\""
  {
    var e := Escape(s);
    var r := "\"" + e + "\"";
    assert r[1..|r| - 1] == e;
    r
  }

  /** The quoted contents can be read back exactly. */
  lemma QuoteStringRoundTrip(s: string)
    ensures var r := QuoteString(s); Unescape(r[1..|r| - 1]) == s
  {
    var r := QuoteString(s);
    assert r[1..|r| - 1] == Escape(s);
    UnescapeEscape(s);
  }

  /** Escaping distributes over concatenation. */
  lemma {:induction false} EscapeAppend(a: string, b: string)
    ensures Escape(a + b) == Escape(a) + Escape(b)
  {
    if a == [] {
      assert a + b == b;
    } else {
      assert (a + b)[0] == a[0];
      assert (a + b)[1..] == a[1..] + b;
      EscapeAppend(a[1..], b);
    }
  }

  /**
   * Escaping one character: `"` becomes `\"`, anything else stays as it
   * is. With EscapeAppend this fixes Escape on every string.
   */
  lemma EscapeChar(c: char)
    ensures Escape([c]) == if c == '"' then ['\\', '"'] else [c]
  {
    assert [c][1..] == [];
  }
}
