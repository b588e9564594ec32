/**
 * The pieces of Go's `strings` and `unicode` packages the generators and the
 * argument classifier rely on, on strings of runes: `unicode.IsSpace`,
 * `strings.TrimSpace`, `strings.EqualFold` against a lower-case ASCII word,
 * and `strings.ToLower`.
 */
module Text {

  /** `unicode.IsSpace`: the ASCII spaces '\t', '\n', '\v', '\f', '\r', ' ', and
      U+0085, U+00A0 and the other runes with the Unicode White_Space property. */
  predicate IsSpace(c: char)
  {
    || c == ' '
    || '\t' <= c <= '\r'
    || c == '\U{0085}' || c == '\U{00A0}' || c == '\U{1680}'
    || '\U{2000}' <= c <= '\U{200A}'
    || c == '\U{2028}' || c == '\U{2029}' || c == '\U{202F}' || c == '\U{205F}'
    || c == '\U{3000}'
  }

  predicate AllSpace(s: string)
  {
    forall k :: 0 <= k < |s| ==> IsSpace(s[k])
  }

  /** The number of white-space runes at the front of `s`. */
  function LeadingSpaces(s: string): (n: nat)
    ensures n <= |s|
    ensures forall k :: 0 <= k < n ==> IsSpace(s[k])
    ensures n < |s| ==> !IsSpace(s[n])
    decreases |s|
  {
    if |s| > 0 && IsSpace(s[0]) then 1 + LeadingSpaces(s[1..]) else 0
  }

  /** The number of white-space runes at the end of `s`. */
  function TrailingSpaces(s: string): (n: nat)
    ensures n <= |s|
    ensures forall k :: |s| - n <= k < |s| ==> IsSpace(s[k])
    ensures n < |s| ==> !IsSpace(s[|s| - 1 - n])
    decreases |s|
  {
    if |s| > 0 && IsSpace(s[|s| - 1]) then 1 + TrailingSpaces(s[..|s| - 1]) else 0
  }

  /** `strings.TrimSpace`: `s` without its leading and trailing white space. The
      result starts and ends with a non-space rune, and it is empty exactly when
      `s` is all white space. */
  function TrimSpace(s: string): (r: string)
    ensures |r| <= |s|
    ensures r == [] || (!IsSpace(r[0]) && !IsSpace(r[|r| - 1]))
    ensures r == [] <==> AllSpace(s)
  {
    var lead := LeadingSpaces(s);
    var t := s[lead..];
    assert lead < |s| ==> t[0] == s[lead];
    t[..|t| - TrailingSpaces(t)]
  }

  /** A string that neither starts nor ends with white space is its own trim. */
  lemma TrimSpaceOfTrimmed(s: string)
    requires s == [] || (!IsSpace(s[0]) && !IsSpace(s[|s| - 1]))
    ensures TrimSpace(s) == s
  {
    assert LeadingSpaces(s) == 0;
    assert s[0..] == s;
    assert TrailingSpaces(s) == 0;
  }

  /** Trimming twice is trimming once. */
  lemma TrimSpaceIdempotent(s: string)
    ensures TrimSpace(TrimSpace(s)) == TrimSpace(s)
  {
    TrimSpaceOfTrimmed(TrimSpace(s));
  }

  /** White space added at either end is trimmed away again. */
  lemma TrimSpacePadded(w1: string, s: string, w2: string)
    requires AllSpace(w1) && AllSpace(w2)
    ensures TrimSpace(w1 + s + w2) == TrimSpace(s)
  {
    if AllSpace(s) {
      assert AllSpace(w1 + s + w2);
    } else {
      TrimSpacePaddedText(w1, s, w2);
    }
  }

  lemma TrimSpacePaddedText(w1: string, s: string, w2: string)
    requires AllSpace(w1) && AllSpace(w2) && !AllSpace(s)
    ensures TrimSpace(w1 + s + w2) == TrimSpace(s)
  {
    var lead := LeadingSpaces(s);
    var x := w1 + (s + w2);
    var u := s[lead..];
    assert w1 + s + w2 == x;
    assert LeadingSpaces(x) == |w1| + lead by {
      LeadingSpacesPadded(w1, s + w2);
      LeadingSpacesExtended(s, w2);
    }
    assert x[|w1| + lead..] == u + w2;
    TrimSpaceBy(x, |w1| + lead, u + w2);
    TrimSpaceBy(s, lead, u);
    TrimSpaceTail(u, w2);
  }

  lemma TrimSpaceBy(s: string, lead: nat, u: string)
    requires lead == LeadingSpaces(s) && u == s[lead..]
    ensures TrimSpace(s) == u[..|u| - TrailingSpaces(u)]
  {
  }

  lemma TrimSpaceTail(u: string, w: string)
    requires AllSpace(w)
    ensures var t := u + w; t[..|t| - TrailingSpaces(t)] == u[..|u| - TrailingSpaces(u)]
  {
    TrailingSpacesPadded(u, w);
    var t := u + w;
    assert t[..|t| - TrailingSpaces(t)] == u[..|u| - TrailingSpaces(u)];
  }

  lemma {:induction false} LeadingSpacesPadded(w: string, s: string)
    requires AllSpace(w)
    ensures LeadingSpaces(w + s) == |w| + LeadingSpaces(s)
    decreases |w|
  {
    if |w| > 0 {
      assert (w + s)[1..] == w[1..] + s;
      LeadingSpacesPadded(w[1..], s);
    } else {
      assert w + s == s;
    }
  }

  lemma {:induction false} LeadingSpacesExtended(s: string, w: string)
    requires LeadingSpaces(s) < |s|
    ensures LeadingSpaces(s + w) == LeadingSpaces(s)
    decreases |s|
  {
    if IsSpace(s[0]) {
      assert (s + w)[1..] == s[1..] + w;
      LeadingSpacesExtended(s[1..], w);
    }
  }

  lemma {:induction false} TrailingSpacesPadded(s: string, w: string)
    requires AllSpace(w)
    ensures TrailingSpaces(s + w) == TrailingSpaces(s) + |w|
    decreases |w|
  {
    if |w| > 0 {
      var w' := w[..|w| - 1];
      assert (s + w)[..|s + w| - 1] == s + w';
      TrailingSpacesPadded(s, w');
    } else {
      assert s + w == s;
    }
  }

  /** The runes `unicode.SimpleFold` cycles through from the lower-case ASCII
      letter `t`: the letter, its upper case, and for 'k' the Kelvin sign
      U+212A and for 's' the long s U+017F. */
  predicate FoldsTo(c: char, t: char)
    requires 'a' <= t <= 'z'
  {
    || c == t
    || c as int == t as int - 32
    || (t == 'k' && c == '\U{212A}')
    || (t == 's' && c == '\U{017F}')
  }

  predicate LowerAsciiWord(t: string)
  {
    forall i :: 0 <= i < |t| ==> 'a' <= t[i] <= 'z'
  }

  /** `strings.EqualFold(s, t)` for a lower-case ASCII word `t`: rune by rune
      equal under simple case folding. */
  predicate EqualFold(s: string, t: string)
    requires LowerAsciiWord(t)
  {
    |s| == |t| && forall i :: 0 <= i < |s| ==> FoldsTo(s[i], t[i])
  }

  /** `unicode.ToLower` on the runes whose lower case is ASCII: 'A'..'Z', the
      dotted capital I U+0130 (lower case 'i') and the Kelvin sign U+212A
      (lower case 'k'). Every other rune is kept. */
  function Lower(c: char): (r: char)
    ensures 'A' <= c <= 'Z' ==> r as int == c as int + 32
    ensures !('A' <= c <= 'Z') && c != '\U{0130}' && c != '\U{212A}' ==> r == c
    ensures 'a' <= r <= 'z' ==> FoldsTo(c, r) || c == '\U{0130}'
    ensures r != c ==> 'a' <= r <= 'z'
  {
    if 'A' <= c <= 'Z' then (c as int + 32) as char
    else if c == '\U{0130}' then 'i'
    else if c == '\U{212A}' then 'k'
    else c
  }

  /** `strings.ToLower`, rune by rune. */
  function ToLower(s: string): (r: string)
    ensures |r| == |s|
    ensures forall i :: 0 <= i < |s| ==> r[i] == Lower(s[i])
  {
    if s == [] then [] else ToLower(s[..|s| - 1]) + [Lower(s[|s| - 1])]
  }

  /** A word typed in any mix of ASCII cases lower-cases to the word. */
  lemma LowerAnyCase(u: string, t: string)
    requires LowerAsciiWord(t) && |u| == |t|
    requires forall i :: 0 <= i < |u| ==> u[i] == t[i] || u[i] as int == t[i] as int - 32
    ensures ToLower(u) == t
  {
    var l := ToLower(u);
    forall i | 0 <= i < |u|
      ensures l[i] == t[i]
    {
      LowerOfCase(u[i], t[i]);
    }
  }

  lemma LowerOfCase(c: char, t: char)
    requires 'a' <= t <= 'z'
    requires c == t || c as int == t as int - 32
    ensures Lower(c) == t
  {
    if c != t {
      assert 'A' <= c <= 'Z';
    }
  }
}
