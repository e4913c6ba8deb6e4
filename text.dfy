/**
 * The string helpers the renderer relies on: prefix tests, ASCII lower-casing,
 * Swift's `prefix`/`dropFirst`, left-to-right `replacingOccurrences`, the
 * angle-bracket escaping of HTMLVisitor.swift and decimal printing.
 */
module Text {

  /** `s.hasPrefix(prefix)` */
  predicate StartsWith(s: string, prefix: string) {
    |prefix| <= |s| && s[..|prefix|] == prefix
  }

  /** `t` occurs somewhere in `s` (`s.contains(t)`). */
  predicate Occurs(s: string, t: string)
    decreases |s|
  {
    StartsWith(s, t) || (|s| > 0 && Occurs(s[1..], t))
  }

  function LowerChar(c: char): char {
    if 'A' <= c <= 'Z' then (c as int + 32) as char else c
  }

  /** `s.lowercased()`, restricted to ASCII letters. */
  function Lower(s: string): (r: string)
    ensures |r| == |s|
    ensures forall i :: 0 <= i < |s| ==> r[i] == LowerChar(s[i])
  {
    if s == [] then [] else [LowerChar(s[0])] + Lower(s[1..])
  }

  /** Swift's `s.prefix(n)`: at most the first `n` characters. */
  function Take(s: string, n: nat): (r: string)
    ensures |r| == if n <= |s| then n else |s|
    ensures StartsWith(s, r)
  {
    if n <= |s| then s[..n] else s
  }

  /** Swift's `s.dropFirst(n)`: everything after the first `n` characters. */
  function Drop(s: string, n: nat): (r: string)
    ensures Take(s, n) + r == s
  {
    if n <= |s| then s[n..] else []
  }

  // ---------------------------------------------------------------------
  // Escaping (HTMLVisitor.swift: `escapeAngleBrackets`)

  predicate NoAngleBrackets(s: string) {
    forall i :: 0 <= i < |s| ==> s[i] != '<' && s[i] != '>'
  }

  function EscapeChar(c: char): string {
    if c == '<' then "&lt;" else if c == '>' then "&gt;" else [c]
  }

  /**
   * Replaces `<` by `&lt;` and `>` by `&gt;`; every other character,
   * `&` included, is kept as it is.
   */
  function EscapeAngleBrackets(s: string): (r: string)
    ensures NoAngleBrackets(r)
    ensures |r| >= |s|
  {
    if s == [] then [] else EscapeChar(s[0]) + EscapeAngleBrackets(s[1..])
  }

  /** A string without angle brackets is its own escape. */
  lemma {:induction false} EscapeKeepsCleanText(s: string)
    requires NoAngleBrackets(s)
    ensures EscapeAngleBrackets(s) == s
  {
    if s != [] {
      assert NoAngleBrackets(s[1..]) by {
        forall i | 0 <= i < |s[1..]| ensures s[1..][i] != '<' && s[1..][i] != '>' {
          assert s[1..][i] == s[i + 1];
        }
      }
      EscapeKeepsCleanText(s[1..]);
      assert s == [s[0]] + s[1..];
    }
  }

  /** Escaping twice is escaping once. */
  lemma EscapeIdempotent(s: string)
    ensures EscapeAngleBrackets(EscapeAngleBrackets(s)) == EscapeAngleBrackets(s)
  {
    EscapeKeepsCleanText(EscapeAngleBrackets(s));
  }

  /**
   * `&` is not escaped, so escaping loses information: the text `<` and the
   * text `&lt;` escape to the same string.
   */
  lemma EscapeIsNotInjective()
    ensures EscapeAngleBrackets("<") == EscapeAngleBrackets("&lt;") == "&lt;"
  {
    assert "&lt;"[1..] == "lt;";
    assert "lt;"[1..] == "t;";
    assert "t;"[1..] == ";";
  }

  // ---------------------------------------------------------------------
  // replacingOccurrences

  /**
   * `s.replacingOccurrences(of: from, with: to)`: a left-to-right scan that
   * replaces every non-overlapping occurrence of `from`.
   */
  function ReplaceAll(s: string, from: string, to: string): string
    requires |from| > 0
    decreases |s|
  {
    if |s| < |from| then s
    else if s[..|from|] == from then to + ReplaceAll(s[|from|..], from, to)
    else [s[0]] + ReplaceAll(s[1..], from, to)
  }

  /** Replacing a string that does not occur changes nothing. */
  lemma {:induction false} ReplaceAbsent(s: string, from: string, to: string)
    requires |from| > 0 && !Occurs(s, from)
    ensures ReplaceAll(s, from, to) == s
  {
    if |s| >= |from| {
      ReplaceAbsent(s[1..], from, to);
      assert s == [s[0]] + s[1..];
    }
  }

  /** A token replaced by itself leaves the string as it was. */
  lemma {:induction false} ReplaceBySelf(s: string, from: string)
    requires |from| > 0
    ensures ReplaceAll(s, from, from) == s
  {
    if |s| >= |from| {
      if s[..|from|] == from {
        ReplaceBySelf(s[|from|..], from);
        assert s == s[..|from|] + s[|from|..];
      } else {
        ReplaceBySelf(s[1..], from);
        assert s == [s[0]] + s[1..];
      }
    }
  }

  /** Replacing a single character distributes over concatenation. */
  lemma {:induction false} ReplaceCharConcat(a: string, b: string, c: char, to: string)
    ensures ReplaceAll(a + b, [c], to) == ReplaceAll(a, [c], to) + ReplaceAll(b, [c], to)
    decreases |a|
  {
    if a != [] {
      assert (a + b)[1..] == a[1..] + b;
      assert (a + b)[..1] == a[..1];
      assert (a + b)[0] == a[0];
      ReplaceCharConcat(a[1..], b, c, to);
      if a[..1] == [c] {
        assert ReplaceAll(a, [c], to) == to + ReplaceAll(a[1..], [c], to);
        assert ReplaceAll(a + b, [c], to) == to + ReplaceAll(a[1..] + b, [c], to);
      } else {
        assert ReplaceAll(a, [c], to) == [a[0]] + ReplaceAll(a[1..], [c], to);
        assert ReplaceAll(a + b, [c], to) == [a[0]] + ReplaceAll(a[1..] + b, [c], to);
      }
    } else {
      assert a + b == b;
    }
  }

  function ReplaceOneChar(c: char, from: char, to: string): string {
    if c == from then to else [c]
  }

  lemma ReplaceSingleChar(c: char, from: char, to: string)
    ensures ReplaceAll([c], [from], to) == ReplaceOneChar(c, from, to)
  {
    assert [c][..1] == [c];
    assert [c][1..] == [];
  }

  lemma {:induction false} ReplaceCharClean(s: string, c: char, to: string)
    requires forall i :: 0 <= i < |s| ==> s[i] != c
    ensures ReplaceAll(s, [c], to) == s
    decreases |s|
  {
    if s != [] {
      assert s[..1] == [s[0]];
      ReplaceCharClean(s[1..], c, to);
      assert s == [s[0]] + s[1..];
    }
  }

  /**
   * The escaping is the same whichever order the two replacements of the
   * source's dictionary `["<": "&lt;", ">": "&gt;"]` are applied in.
   */
  lemma {:induction false} EscapeIsEitherReplacementOrder(s: string)
    ensures EscapeAngleBrackets(s) == ReplaceAll(ReplaceAll(s, "<", "&lt;"), ">", "&gt;")
    ensures EscapeAngleBrackets(s) == ReplaceAll(ReplaceAll(s, ">", "&gt;"), "<", "&lt;")
    decreases |s|
  {
    if s != [] {
      var c, rest := s[0], s[1..];
      assert s == [c] + rest;
      EscapeIsEitherReplacementOrder(rest);
      ReplaceCharConcat([c], rest, '<', "&lt;");
      ReplaceCharConcat([c], rest, '>', "&gt;");
      ReplaceSingleChar(c, '<', "&lt;");
      ReplaceSingleChar(c, '>', "&gt;");
      var lt := ReplaceOneChar(c, '<', "&lt;");
      var gt := ReplaceOneChar(c, '>', "&gt;");
      ReplaceCharConcat(lt, ReplaceAll(rest, "<", "&lt;"), '>', "&gt;");
      ReplaceCharConcat(gt, ReplaceAll(rest, ">", "&gt;"), '<', "&lt;");
      if c == '<' {
        ReplaceCharClean("&lt;", '>', "&gt;");
        ReplaceSingleChar(c, '>', "&gt;");
      } else if c == '>' {
        ReplaceCharClean("&gt;", '<', "&lt;");
        ReplaceSingleChar(c, '<', "&lt;");
      } else {
        ReplaceSingleChar(c, '>', "&gt;");
        ReplaceSingleChar(c, '<', "&lt;");
      }
    }
  }

  /**
   * The dictionary form `s.replacingOccurrences([from: to, ...])`, with the
   * dictionary's iteration order made explicit as the order of `pairs`.
   */
  function ReplaceEach(s: string, pairs: seq<(string, string)>): string
    requires forall i :: 0 <= i < |pairs| ==> |pairs[i].0| > 0
    decreases |pairs|
  {
    if pairs == [] then s
    else ReplaceEach(ReplaceAll(s, pairs[0].0, pairs[0].1), pairs[1..])
  }

  /** A template without any of the tokens comes out unchanged. */
  lemma {:induction false} ReplaceEachAbsent(s: string, pairs: seq<(string, string)>)
    requires forall i :: 0 <= i < |pairs| ==> |pairs[i].0| > 0 && !Occurs(s, pairs[i].0)
    ensures ReplaceEach(s, pairs) == s
    decreases |pairs|
  {
    if pairs != [] {
      ReplaceAbsent(s, pairs[0].0, pairs[0].1);
      ReplaceEachAbsent(s, pairs[1..]);
    }
  }

  // ---------------------------------------------------------------------
  // Numbers and paths

  function Digit(d: nat): char
    requires d < 10
  {
    "0123456789"[d]
  }

  /** `String(n)` for a non-negative integer. */
  function NatToString(n: nat): (r: string)
    ensures |r| > 0
    ensures forall i :: 0 <= i < |r| ==> '0' <= r[i] <= '9'
  {
    if n < 10 then [Digit(n)] else NatToString(n / 10) + [Digit(n % 10)]
  }

  /** `String(i)` for any integer. */
  function IntToString(i: int): string {
    if i < 0 then "-" + NatToString(-i) else NatToString(i)
  }

  /** ToucanCore's `ensureTrailingSlash()`. */
  function EnsureTrailingSlash(s: string): (r: string)
    ensures StartsWith(r, s) && |r| > 0 && r[|r| - 1] == '/'
    ensures |r| == |s| || |r| == |s| + 1
  {
    if |s| > 0 && s[|s| - 1] == '/' then s else s + "/"
  }
}
