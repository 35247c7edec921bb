/** The two escape helpers of the blog generators, `escapeHtml` and
    `escapeAttr` (lines 886-894, and the copy at lines 1052-1055): chains of
    global single-character `replace` calls, `&` first.

    The replacement texts are gathered in an `Entities` record so that the
    proofs are stated once for any texts with the properties the chain
    relies on; `Refs` holds the five character references the helpers use. */
module Escape {
  import opened Strings

  /** `s.replace(/c/g, r)` for a one-character pattern `c`. */
  function ReplaceAll(s: string, c: char, r: string): string {
    if s == [] then [] else (if s[0] == c then r else [s[0]]) + ReplaceAll(s[1..], c, r)
  }

  lemma {:induction false} ReplaceAllAppend(a: string, b: string, c: char, r: string)
    ensures ReplaceAll(a + b, c, r) == ReplaceAll(a, c, r) + ReplaceAll(b, c, r)
  {
    if a == [] {
      assert a + b == b;
    } else {
      assert (a + b)[1..] == a[1..] + b;
      ReplaceAllAppend(a[1..], b, c, r);
    }
  }

  lemma {:induction false} ReplaceAllAbsent(s: string, c: char, r: string)
    requires c !in s
    ensures ReplaceAll(s, c, r) == s
  {
    if s != [] {
      ReplaceAllAbsent(s[1..], c, r);
    }
  }

  lemma ReplaceOne(c: char, d: char, r: string)
    ensures ReplaceAll([c], d, r) == if c == d then r else [c]
  {
    assert [c][1..] == [];
  }

  /** The replacement texts for `&`, `<`, `>`, `"` and `'`. */
  datatype Entities = Entities(amp: string, lt: string, gt: string, quot: string, apos: string)

  const Refs: Entities := Entities("&amp;", "&lt;", "&gt;", "&quot;", "&#039;")

  /** No raw `<`, `>`, `"` or `'`. */
  predicate Safe(t: string) {
    '<' !in t && '>' !in t && '"' !in t && '\'' !in t
  }

  /** A reference: `&` followed by at least one more character. */
  predicate Marked(t: string) {
    |t| >= 2 && t[0] == '&'
  }

  /** What the proofs need of the replacement texts: none contains a
      character a later step replaces, each starts with `&`, and their second
      characters tell them apart. */
  predicate Sound(e: Entities) {
    Safe(e.amp) && Safe(e.lt) && Safe(e.gt) && Safe(e.quot) && Safe(e.apos)
    && Marked(e.amp) && Marked(e.lt) && Marked(e.gt) && Marked(e.quot) && Marked(e.apos)
    && e.amp[1] != e.lt[1] && e.amp[1] != e.gt[1] && e.amp[1] != e.quot[1] && e.amp[1] != e.apos[1]
    && e.lt[1] != e.gt[1] && e.lt[1] != e.quot[1] && e.lt[1] != e.apos[1]
    && e.gt[1] != e.quot[1] && e.gt[1] != e.apos[1]
    && e.quot[1] != e.apos[1]
  }

  lemma RefSound(t: string, second: char)
    requires |t| >= 2 && t[0] == '&' && t[1] == second
    requires forall i | 0 <= i < |t| :: t[i] != '<' && t[i] != '>' && t[i] != '"' && t[i] != '\''
    ensures Safe(t) && Marked(t) && t[1] == second
  {
  }

  lemma RefsSound()
    ensures Sound(Refs)
  {
    RefSound(Refs.amp, 'a');
    RefSound(Refs.lt, 'l');
    RefSound(Refs.gt, 'g');
    RefSound(Refs.quot, 'q');
    RefSound(Refs.apos, '#');
  }

  /** The `escapeHtml` chain: `&`, `<`, `>`, `"`, `'`. */
  function HtmlChain(s: string, e: Entities): string {
    ReplaceAll(ReplaceAll(ReplaceAll(ReplaceAll(ReplaceAll(s, '&', e.amp), '<', e.lt), '>', e.gt), '"', e.quot), '\'', e.apos)
  }

  /** The `escapeAttr` chain: `&`, `"`, `<`, `>`. */
  function AttrChain(s: string, e: Entities): string {
    ReplaceAll(ReplaceAll(ReplaceAll(ReplaceAll(s, '&', e.amp), '"', e.quot), '<', e.lt), '>', e.gt)
  }

  /** `escapeHtml` for a non-null argument. */
  function EscapeHtml(s: string): string {
    HtmlChain(s, Refs)
  }

  /** `escapeAttr` for a non-null argument. */
  function EscapeAttr(s: string): string {
    AttrChain(s, Refs)
  }

  /** The reference: the replacement of each special character. */
  function Entity(c: char, e: Entities, attr: bool): string {
    if c == '&' then e.amp
    else if c == '<' then e.lt
    else if c == '>' then e.gt
    else if c == '"' then e.quot
    else if c == '\'' && !attr then e.apos
    else [c]
  }

  /** Escaping character by character. */
  function EachEscaped(s: string, e: Entities, attr: bool): string {
    if s == [] then [] else Entity(s[0], e, attr) + EachEscaped(s[1..], e, attr)
  }

  lemma HtmlChainAppend(a: string, b: string, e: Entities)
    ensures HtmlChain(a + b, e) == HtmlChain(a, e) + HtmlChain(b, e)
  {
    var s1a, s1b := ReplaceAll(a, '&', e.amp), ReplaceAll(b, '&', e.amp);
    ReplaceAllAppend(a, b, '&', e.amp);
    var s2a, s2b := ReplaceAll(s1a, '<', e.lt), ReplaceAll(s1b, '<', e.lt);
    ReplaceAllAppend(s1a, s1b, '<', e.lt);
    var s3a, s3b := ReplaceAll(s2a, '>', e.gt), ReplaceAll(s2b, '>', e.gt);
    ReplaceAllAppend(s2a, s2b, '>', e.gt);
    var s4a, s4b := ReplaceAll(s3a, '"', e.quot), ReplaceAll(s3b, '"', e.quot);
    ReplaceAllAppend(s3a, s3b, '"', e.quot);
    ReplaceAllAppend(s4a, s4b, '\'', e.apos);
  }

  lemma AttrChainAppend(a: string, b: string, e: Entities)
    ensures AttrChain(a + b, e) == AttrChain(a, e) + AttrChain(b, e)
  {
    var s1a, s1b := ReplaceAll(a, '&', e.amp), ReplaceAll(b, '&', e.amp);
    ReplaceAllAppend(a, b, '&', e.amp);
    var s2a, s2b := ReplaceAll(s1a, '"', e.quot), ReplaceAll(s1b, '"', e.quot);
    ReplaceAllAppend(s1a, s1b, '"', e.quot);
    var s3a, s3b := ReplaceAll(s2a, '<', e.lt), ReplaceAll(s2b, '<', e.lt);
    ReplaceAllAppend(s2a, s2b, '<', e.lt);
    ReplaceAllAppend(s3a, s3b, '>', e.gt);
  }

  /** Once a text is safe, no later step of either chain touches it. */
  lemma SafeKept(t: string, e: Entities)
    requires Safe(t)
    ensures ReplaceAll(t, '<', e.lt) == t && ReplaceAll(t, '>', e.gt) == t
    ensures ReplaceAll(t, '"', e.quot) == t && ReplaceAll(t, '\'', e.apos) == t
  {
    ReplaceAllAbsent(t, '<', e.lt);
    ReplaceAllAbsent(t, '>', e.gt);
    ReplaceAllAbsent(t, '"', e.quot);
    ReplaceAllAbsent(t, '\'', e.apos);
  }

  /** A character that no step replaces passes through both chains. */
  lemma ChainPlain(c: char, e: Entities)
    requires c != '&' && c != '<' && c != '>' && c != '"' && c != '\''
    ensures HtmlChain([c], e) == [c] && AttrChain([c], e) == [c]
  {
    ReplaceAllAbsent([c], '&', e.amp);
    ReplaceAllAbsent([c], '<', e.lt);
    ReplaceAllAbsent([c], '>', e.gt);
    ReplaceAllAbsent([c], '"', e.quot);
    ReplaceAllAbsent([c], '\'', e.apos);
  }

  lemma ChainAmp(e: Entities)
    requires Sound(e)
    ensures HtmlChain("&", e) == e.amp && AttrChain("&", e) == e.amp
  {
    ReplaceOne('&', '&', e.amp);
    SafeKept(e.amp, e);
  }

  lemma ChainLt(e: Entities)
    requires Sound(e)
    ensures HtmlChain("<", e) == e.lt && AttrChain("<", e) == e.lt
  {
    ReplaceOne('<', '&', e.amp);
    ReplaceOne('<', '"', e.quot);
    ReplaceOne('<', '<', e.lt);
    SafeKept(e.lt, e);
  }

  lemma ChainGt(e: Entities)
    requires Sound(e)
    ensures HtmlChain(">", e) == e.gt && AttrChain(">", e) == e.gt
  {
    ReplaceOne('>', '&', e.amp);
    ReplaceOne('>', '<', e.lt);
    ReplaceOne('>', '"', e.quot);
    ReplaceOne('>', '>', e.gt);
    SafeKept(e.gt, e);
  }

  lemma ChainQuot(e: Entities)
    requires Sound(e)
    ensures HtmlChain("\"", e) == e.quot && AttrChain("\"", e) == e.quot
  {
    ReplaceOne('"', '&', e.amp);
    ReplaceOne('"', '<', e.lt);
    ReplaceOne('"', '>', e.gt);
    ReplaceOne('"', '"', e.quot);
    SafeKept(e.quot, e);
  }

  lemma ChainApos(e: Entities)
    requires Sound(e)
    ensures HtmlChain("'", e) == e.apos && AttrChain("'", e) == "'"
  {
    ReplaceOne('\'', '&', e.amp);
    ReplaceOne('\'', '<', e.lt);
    ReplaceOne('\'', '>', e.gt);
    ReplaceOne('\'', '"', e.quot);
    ReplaceOne('\'', '\'', e.apos);
  }

  lemma ChainChar(c: char, e: Entities)
    requires Sound(e)
    ensures HtmlChain([c], e) == Entity(c, e, false)
    ensures AttrChain([c], e) == Entity(c, e, true)
  {
    if c == '&' { ChainAmp(e); }
    else if c == '<' { ChainLt(e); }
    else if c == '>' { ChainGt(e); }
    else if c == '"' { ChainQuot(e); }
    else if c == '\'' { ChainApos(e); }
    else { ChainPlain(c, e); }
  }

  /** The `replace` chain of `escapeHtml` escapes each character on its own:
      no replacement feeds a later one. */
  lemma {:induction false} HtmlChainIsEach(s: string, e: Entities)
    requires Sound(e)
    ensures HtmlChain(s, e) == EachEscaped(s, e, false)
  {
    if s != [] {
      assert s == [s[0]] + s[1..];
      HtmlChainAppend([s[0]], s[1..], e);
      ChainChar(s[0], e);
      HtmlChainIsEach(s[1..], e);
    }
  }

  /** The same for the chain of `escapeAttr`. */
  lemma {:induction false} AttrChainIsEach(s: string, e: Entities)
    requires Sound(e)
    ensures AttrChain(s, e) == EachEscaped(s, e, true)
  {
    if s != [] {
      assert s == [s[0]] + s[1..];
      AttrChainAppend([s[0]], s[1..], e);
      ChainChar(s[0], e);
      AttrChainIsEach(s[1..], e);
    }
  }

  lemma {:induction false} EachEscapedSafe(s: string, e: Entities, attr: bool)
    requires Sound(e)
    ensures '<' !in EachEscaped(s, e, attr) && '>' !in EachEscaped(s, e, attr) && '"' !in EachEscaped(s, e, attr)
    ensures !attr ==> '\'' !in EachEscaped(s, e, attr)
  {
    if s != [] {
      EachEscapedSafe(s[1..], e, attr);
      var x := Entity(s[0], e, attr);
      assert '<' !in x && '>' !in x && '"' !in x && (!attr ==> '\'' !in x);
    }
  }

  /** `escapeHtml` maps each character to its own reference. */
  lemma EscapeHtmlIsEach(s: string)
    ensures EscapeHtml(s) == EachEscaped(s, Refs, false)
  {
    RefsSound();
    HtmlChainIsEach(s, Refs);
  }

  /** `escapeAttr` maps each character to its own reference, except `'`. */
  lemma EscapeAttrIsEach(s: string)
    ensures EscapeAttr(s) == EachEscaped(s, Refs, true)
  {
    RefsSound();
    AttrChainIsEach(s, Refs);
  }

  /** `escapeHtml` leaves no raw `<`, `>`, `"` or `'`. */
  lemma EscapeHtmlSafe(s: string)
    ensures Safe(EscapeHtml(s))
  {
    RefsSound();
    HtmlChainIsEach(s, Refs);
    EachEscapedSafe(s, Refs, false);
  }

  /** `escapeAttr` leaves no raw `<`, `>` or `"`. */
  lemma EscapeAttrSafe(s: string)
    ensures '<' !in EscapeAttr(s) && '>' !in EscapeAttr(s) && '"' !in EscapeAttr(s)
  {
    RefsSound();
    AttrChainIsEach(s, Refs);
    EachEscapedSafe(s, Refs, true);
  }

  /** Decoding of the five references, left to right. */
  function Unescape(s: string, e: Entities): string
    requires Sound(e)
    decreases |s|
  {
    if s == [] then []
    else if StartsWith(s, e.amp) then "&" + Unescape(s[|e.amp|..], e)
    else if StartsWith(s, e.lt) then "<" + Unescape(s[|e.lt|..], e)
    else if StartsWith(s, e.gt) then ">" + Unescape(s[|e.gt|..], e)
    else if StartsWith(s, e.quot) then "\"" + Unescape(s[|e.quot|..], e)
    else if StartsWith(s, e.apos) then "'" + Unescape(s[|e.apos|..], e)
    else [s[0]] + Unescape(s[1..], e)
  }

  /** A text that starts otherwise than `t` does is not taken for `t`. */
  lemma NotPrefix(x: string, rest: string, t: string)
    requires |x| >= 2 && |t| >= 2 && x[1] != t[1]
    ensures !StartsWith(x + rest, t)
  {
    assert (x + rest)[1] == x[1];
  }

  /** A text that does not start with `&` is not taken for a reference. */
  lemma NotAmpersand(c: char, rest: string, t: string)
    requires c != '&' && Marked(t)
    ensures !StartsWith([c] + rest, t)
  {
    assert ([c] + rest)[0] == c;
  }

  lemma UnescapeFront(x: string, rest: string, e: Entities)
    requires Sound(e) && |x| > 0
    ensures Unescape(x + rest, e) ==
      if StartsWith(x + rest, e.amp) then "&" + Unescape((x + rest)[|e.amp|..], e)
      else if StartsWith(x + rest, e.lt) then "<" + Unescape((x + rest)[|e.lt|..], e)
      else if StartsWith(x + rest, e.gt) then ">" + Unescape((x + rest)[|e.gt|..], e)
      else if StartsWith(x + rest, e.quot) then "\"" + Unescape((x + rest)[|e.quot|..], e)
      else if StartsWith(x + rest, e.apos) then "'" + Unescape((x + rest)[|e.apos|..], e)
      else [(x + rest)[0]] + Unescape((x + rest)[1..], e)
  {
  }

  lemma TakeReference(x: string, rest: string)
    ensures StartsWith(x + rest, x) && (x + rest)[|x|..] == rest
  {
    assert (x + rest)[..|x|] == x;
  }

  /** Decoding undoes the escape of one character, whatever follows it. */
  lemma UnescapeEntity(c: char, rest: string, e: Entities, attr: bool)
    requires Sound(e)
    ensures Unescape(Entity(c, e, attr) + rest, e) == [c] + Unescape(rest, e)
  {
    var x := Entity(c, e, attr);
    UnescapeFront(x, rest, e);
    TakeReference(x, rest);
    if c == '&' {
    } else if c == '<' {
      NotPrefix(x, rest, e.amp);
    } else if c == '>' {
      NotPrefix(x, rest, e.amp);
      NotPrefix(x, rest, e.lt);
    } else if c == '"' {
      NotPrefix(x, rest, e.amp);
      NotPrefix(x, rest, e.lt);
      NotPrefix(x, rest, e.gt);
    } else if c == '\'' && !attr {
      NotPrefix(x, rest, e.amp);
      NotPrefix(x, rest, e.lt);
      NotPrefix(x, rest, e.gt);
      NotPrefix(x, rest, e.quot);
    } else {
      assert x == [c];
      NotAmpersand(c, rest, e.amp);
      NotAmpersand(c, rest, e.lt);
      NotAmpersand(c, rest, e.gt);
      NotAmpersand(c, rest, e.quot);
      NotAmpersand(c, rest, e.apos);
    }
  }

  lemma {:induction false} UnescapeEach(s: string, e: Entities, attr: bool)
    requires Sound(e)
    ensures Unescape(EachEscaped(s, e, attr), e) == s
  {
    if s != [] {
      UnescapeEntity(s[0], EachEscaped(s[1..], e, attr), e, attr);
      UnescapeEach(s[1..], e, attr);
    }
  }

  /** Decoding recovers the text `escapeHtml` was given. */
  lemma EscapeHtmlRoundTrip(s: string)
    ensures Sound(Refs) && Unescape(EscapeHtml(s), Refs) == s
  {
    RefsSound();
    HtmlChainIsEach(s, Refs);
    UnescapeEach(s, Refs, false);
  }

  /** Decoding recovers the text `escapeAttr` was given. */
  lemma EscapeAttrRoundTrip(s: string)
    ensures Sound(Refs) && Unescape(EscapeAttr(s), Refs) == s
  {
    RefsSound();
    AttrChainIsEach(s, Refs);
    UnescapeEach(s, Refs, true);
  }
}
