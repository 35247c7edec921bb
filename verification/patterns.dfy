/** The lexical tests of the extractor, one small predicate per regular
    expression, and the shared text helpers `cleanFAQText`,
    `splitLessonSegments`, `getLessonNumber` and `getModuleNumber`. */
module Patterns {
  import opened Strings

  // ---------------------------------------------------------------------
  // Keyword followed by a number: `kw\s*\d+` on lower-cased text
  // ---------------------------------------------------------------------

  /** `kw\s*(\d+)` matches at `k` of the lower-cased text `lt`. */
  predicate KeywordNumberAt(lt: string, kw: string, k: int) {
    0 <= k && k + |kw| <= |lt| && lt[k..k + |kw|] == kw
    && DigitEnd(lt, SkipSpaces(lt, k + |kw|)) > SkipSpaces(lt, k + |kw|)
  }

  /** The number captured by `(\d+)` at a match. */
  function NumberAt(lt: string, kw: string, k: int): nat
    requires KeywordNumberAt(lt, kw, k)
  {
    var j := SkipSpaces(lt, k + |kw|);
    ParseDigits(lt[j..DigitEnd(lt, j)])
  }

  /** `k` is the leftmost match at or after `i`. */
  predicate FirstMatch(lt: string, kw: string, i: int, k: int) {
    i <= k && KeywordNumberAt(lt, kw, k) && forall j :: i <= j < k ==> !KeywordNumberAt(lt, kw, j)
  }

  lemma FirstMatchBefore(lt: string, kw: string, i: int, k: int)
    requires !KeywordNumberAt(lt, kw, i) && FirstMatch(lt, kw, i + 1, k)
    ensures FirstMatch(lt, kw, i, k)
  {
  }

  /** The number of the leftmost match of `kw\s*(\d+)` at or after `i`. */
  function NumberAfter(lt: string, kw: string, i: nat): (r: Option<nat>)
    ensures r.None? ==> forall k :: i <= k ==> !KeywordNumberAt(lt, kw, k)
    ensures r.Some? ==> exists k :: FirstMatch(lt, kw, i, k) && r.value == NumberAt(lt, kw, k)
    decreases |lt| - i
  {
    if i + |kw| > |lt| then None
    else if KeywordNumberAt(lt, kw, i) then
      assert FirstMatch(lt, kw, i, i);
      Some(NumberAt(lt, kw, i))
    else
      var r := NumberAfter(lt, kw, i + 1);
      if r.None? then r
      else
        var k :| FirstMatch(lt, kw, i + 1, k) && r.value == NumberAt(lt, kw, k);
        FirstMatchBefore(lt, kw, i, k);
        r
  }

  /** `getLessonNumber`: `/lesson\s*(\d+)/i`, else null. */
  function LessonNumber(title: string): Option<nat> {
    NumberAfter(ToLower(title), "lesson", 0)
  }

  /** `getModuleNumber`: `/module\s*(\d+)/i`, else null. */
  function ModuleNumber(title: string): Option<nat> {
    NumberAfter(ToLower(title), "module", 0)
  }

  /** The title the syllabus builder gives a lesson it makes from a bare
      list item: `Lesson ${n}: ${text.substring(0, 50)}...`. */
  function SynthesizedLessonTitle(n: nat, text: string): string {
    "Lesson " + NatToString(n) + ": " + (if |text| <= 50 then text else text[..50]) + "..."
  }

  /** A made-up lesson title sorts by the number written into it. */
  lemma SynthesizedTitleNumber(n: nat, text: string)
    ensures LessonNumber(SynthesizedLessonTitle(n, text)) == Some(n)
  {
    var d := NatToString(n);
    var t := SynthesizedLessonTitle(n, text);
    var lt := ToLower(t);
    assert t[..7] == "Lesson " && t[7..7 + |d|] == d && t[7 + |d|] == ':';
    assert lt[..6] == "lesson";
    assert lt[6] == ' ';
    forall k | 7 <= k < 7 + |d| ensures lt[k] == t[k] == d[k - 7] {
      assert t[k] == d[k - 7];
    }
    assert lt[7] == d[0] && IsDigit(lt[7]);
    assert lt[7 + |d|] == ':';
    var j := SkipSpaces(lt, 6);
    assert j == 7;
    var e := DigitEnd(lt, 7);
    assert e == 7 + |d|;
    assert lt[7..e] == d;
    ParseNatToString(n);
    assert KeywordNumberAt(lt, "lesson", 0);
  }

  // ---------------------------------------------------------------------
  // Anchored markers: `^Module\s*\d+:`, `^MODULE\s*\d+`, `^Lesson\s*\d+:` ...
  // ---------------------------------------------------------------------

  /** `/^kw\s*\d+:/i` when `colon`, `/^kw\s*\d+/i` otherwise. */
  predicate PrefixMarker(text: string, kw: string, colon: bool) {
    var lt := ToLower(text);
    KeywordNumberAt(lt, kw, 0)
    && (colon ==> var e := DigitEnd(lt, SkipSpaces(lt, |kw|)); e < |lt| && lt[e] == ':')
  }

  /** `text.match(/^Module\s*\d+:/i) || text.match(/^MODULE\s*\d+/i)`. */
  predicate IsModuleMarker(text: string) {
    PrefixMarker(text, "module", true) || PrefixMarker(text, "module", false)
  }

  /** `/^\d+\.\s+/`: a numbered line. */
  predicate NumberedPrefix(s: string) {
    var e := DigitEnd(s, 0);
    0 < e && e + 1 < |s| && s[e] == '.' && IsSpace(s[e + 1])
  }

  /** Where the question proper starts: after the number, the dot and the
      white space that follows them. */
  function QuestionStart(s: string): (p: nat)
    requires NumberedPrefix(s)
    ensures DigitEnd(s, 0) + 1 < p <= |s|
  {
    SkipSpaces(s, DigitEnd(s, 0) + 1)
  }

  /** The text after the first `?` of a numbered question, when
      `/^\d+\.\s+(.*?)(?:\?)(.*)$/` matches. Without the `m` flag `$` is the end
      of the text and `.` does not cross a line end, so there is a match
      exactly when the text after the prefix has a `?` and no line end. */
  function QuestionRemainder(s: string): (r: Option<string>)
    ensures r.Some? <==> NumberedPrefix(s) && NoLineTerminator(s[QuestionStart(s)..])
                         && HasChar(s[QuestionStart(s)..], '?')
    ensures r.Some? ==> NumberedPrefix(s)
                        && var q := |s| - |r.value| - 1;
                           QuestionStart(s) <= q && s[q] == '?' && r.value == s[q + 1..]
                           && forall k :: QuestionStart(s) <= k < q ==> s[k] != '?'
  {
    if !NumberedPrefix(s) then None
    else
      var p := QuestionStart(s);
      if NoLineTerminator(s[p..]) && HasChar(s[p..], '?') then
        Some(s[p + FirstIndexOf(s[p..], '?') + 1..])
      else None
  }

  /** A numbered question `n. q?a` on one line, with no `?` in `q`, leaves
      exactly `a` as its remainder. */
  lemma QuestionRemainderOf(n: string, q: string, a: string)
    requires n != [] && forall k :: 0 <= k < |n| ==> IsDigit(n[k])
    requires (q == [] || !IsSpace(q[0])) && !HasChar(q, '?')
    requires NoLineTerminator(q) && NoLineTerminator(a)
    ensures QuestionRemainder(n + ". " + q + "?" + a) == Some(a)
  {
    var s := n + ". " + q + "?" + a;
    assert s[|n|] == '.';
    assert forall k :: 0 <= k < |n| ==> s[k] == n[k];
    assert DigitEnd(s, 0) == |n|;
    assert s[|n| + 1] == ' ';
    assert s[|n| + 2] == (if q == [] then '?' else q[0]);
    assert NumberedPrefix(s);
    assert QuestionStart(s) == |n| + 2;
    var rest := s[|n| + 2..];
    assert rest == q + "?" + a;
    assert rest[|q|] == '?';
    assert NoLineTerminator(rest) by {
      forall k | 0 <= k < |rest| ensures !IsLineTerminator(rest[k]) {
        if k < |q| { assert rest[k] == q[k]; }
        else if k > |q| { assert rest[k] == a[k - |q| - 1]; }
      }
    }
    var r := QuestionRemainder(s);
    assert r.Some?;
    var at := |s| - |r.value| - 1;
    assert at == |n| + 2 + |q|;
    assert s[at + 1..] == a;
  }

  /** `/^\d+\.\d*\s*.*objectives/i` (or `...course\s*objectives` when
      `course`) on the lower-cased text `lt`. */
  predicate NumberedObjectives(lt: string, course: bool) {
    var e := DigitEnd(lt, 0);
    0 < e < |lt| && lt[e] == '.'
    && exists k | e + 1 <= k <= |lt| :: FillerMatches(lt[e + 1..k]) && ObjectivesAt(lt, k, course)
  }

  /** `\d*\s*.*` matches the whole of `w`. */
  predicate FillerMatches(w: string) {
    NoLineTerminator(w[SkipSpaces(w, DigitEnd(w, 0))..])
  }

  predicate ObjectivesAt(lt: string, k: nat, course: bool)
    requires k <= |lt|
  {
    if course then StartsWith(lt[k..], "course") && StartsWith(lt[SkipSpaces(lt, k + 6)..], "objectives")
    else StartsWith(lt[k..], "objectives")
  }

  // ---------------------------------------------------------------------
  // splitLessonSegments
  // ---------------------------------------------------------------------

  /** `lesson\s*\d+:` starts at `i` of the lower-cased text `lt`. */
  predicate LessonMarkerAt(lt: string, i: int) {
    KeywordNumberAt(lt, "lesson", i)
    && var e := DigitEnd(lt, SkipSpaces(lt, i + 6)); e < |lt| && lt[e] == ':'
  }

  /** The first marker at or after `i`, or `|lt|`. */
  function NextMarker(lt: string, i: nat): (r: nat)
    requires i <= |lt|
    ensures i <= r <= |lt|
    ensures r < |lt| ==> LessonMarkerAt(lt, r)
    ensures forall k :: i <= k < r ==> !LessonMarkerAt(lt, k)
    decreases |lt| - i
  {
    if i == |lt| || LessonMarkerAt(lt, i) then i else NextMarker(lt, i + 1)
  }

  /** `text.match(/lesson\s*\d+:/i)`. */
  predicate HasLessonMarker(text: string) {
    NextMarker(ToLower(text), 0) < |text|
  }

  /** How many lesson markers start at or after `i`. */
  function CountMarkers(lt: string, i: nat): nat
    decreases |lt| - i
  {
    if i >= |lt| then 0
    else (if LessonMarkerAt(lt, i) then 1 else 0) + CountMarkers(lt, i + 1)
  }

  /** The segments from the marker at `p` on: each runs up to the next marker
      or the end, and is trimmed. */
  function SegmentsFrom(text: string, lt: string, p: nat): seq<string>
    requires |lt| == |text| && p < |lt| && LessonMarkerAt(lt, p)
    decreases |lt| - p
  {
    var q := NextMarker(lt, p + 1);
    [Trim(text[p..q])] + (if q < |lt| then SegmentsFrom(text, lt, q) else [])
  }

  /** `splitLessonSegments`: the text cut at every `lesson N:` marker,
      dropping what comes before the first one. */
  function SplitLessonSegments(text: string): seq<string> {
    var lt := ToLower(text);
    var p := NextMarker(lt, 0);
    if p == |lt| then [] else SegmentsFrom(text, lt, p)
  }

  /** The `exec` loop of `splitLessonSegments`: each match runs from one
      marker to the next one or the end, and is pushed trimmed. */
  method SplitSegments(text: string) returns (segments: seq<string>)
    ensures segments == SplitLessonSegments(text)
  {
    var lt := ToLower(text);
    var i := NextMarker(lt, 0);
    segments := [];
    while i < |lt|
      invariant |lt| == |text| && i <= |lt| && (i < |lt| ==> LessonMarkerAt(lt, i))
      invariant SegmentsAfter(text, lt, segments, i) == SplitLessonSegments(text)
      decreases |lt| - i
    {
      var q := NextMarker(lt, i + 1);
      SegmentsAfterStep(text, lt, segments, i);
      segments := segments + [Trim(text[i..q])];
      i := q;
    }
  }

  /** What the loop has pushed, followed by the segments from `i` on. */
  function SegmentsAfter(text: string, lt: string, pushed: seq<string>, i: nat): seq<string>
    requires |lt| == |text| && i <= |lt|
  {
    pushed + (if i < |lt| && LessonMarkerAt(lt, i) then SegmentsFrom(text, lt, i) else [])
  }

  lemma SegmentsAfterStep(text: string, lt: string, pushed: seq<string>, i: nat)
    requires |lt| == |text| && i < |lt| && LessonMarkerAt(lt, i)
    ensures var q := NextMarker(lt, i + 1);
            SegmentsAfter(text, lt, pushed, i) == SegmentsAfter(text, lt, pushed + [Trim(text[i..q])], q)
  {
  }

  lemma TrimKeepsSolidStart(s: string)
    requires s != [] && !IsSpace(s[0])
    ensures Trim(s) != []
  {
    var a := TrimInfix(s);
    var c := s[0];
    assert !IsSpace(c);
  }

  lemma {:induction false} NoMarkersBetween(lt: string, i: nat)
    requires i <= |lt|
    ensures CountMarkers(lt, i) == CountMarkers(lt, NextMarker(lt, i))
    decreases |lt| - i
  {
    if i < |lt| && !LessonMarkerAt(lt, i) {
      NoMarkersBetween(lt, i + 1);
    }
  }

  lemma MarkerStartsSolid(text: string, lt: string, p: nat)
    requires lt == ToLower(text) && p < |lt| && LessonMarkerAt(lt, p)
    ensures !IsSpace(text[p])
  {
    assert lt[p..p + 6] == "lesson";
    assert lt[p] == lt[p..p + 6][0] == 'l';
    assert LowerChar(text[p]) == 'l';
  }

  /** Every segment is non-empty and trimmed. */
  predicate AllSolid(segments: seq<string>) {
    forall k :: 0 <= k < |segments| ==> segments[k] != [] && Trimmed(segments[k])
  }

  lemma AllSolidCons(x: string, rest: seq<string>)
    requires x != [] && Trimmed(x) && AllSolid(rest)
    ensures AllSolid([x] + rest)
  {
    var segs := [x] + rest;
    forall k | 0 <= k < |segs| ensures segs[k] != [] && Trimmed(segs[k]) {
      if k > 0 { assert segs[k] == rest[k - 1]; }
    }
  }

  /** `items.map(i => i.trim()).filter(i => i)`: every non-empty trimmed item, in order. */
  function NonEmptyTrims(items: seq<string>): (r: seq<string>)
    ensures AllSolid(r) && |r| <= |items|
  {
    if items == [] then []
    else
      var t := Trim(items[|items| - 1]);
      var r := NonEmptyTrims(items[..|items| - 1]);
      AllSolidSnoc(r, t);
      if t != [] then r + [t] else r
  }

  /** An item anywhere in the list appears, trimmed and in its place
      between the items kept before it and those kept after it, exactly when
      its trimmed text is non-empty. */
  lemma NonEmptyTrimsAt(before: seq<string>, item: string, after: seq<string>)
    ensures NonEmptyTrims(before + [item] + after)
            == NonEmptyTrims(before) + (if Trim(item) != [] then [Trim(item)] else []) + NonEmptyTrims(after)
  {
    NonEmptyTrimsAppend(before + [item], after);
    NonEmptyTrimsAppend(before, [item]);
  }

  /** The filter keeps order: the items of a concatenation are those of
      each part, one after the other, and a single item is kept exactly
      when its trimmed text is non-empty. */
  lemma {:induction false} NonEmptyTrimsAppend(a: seq<string>, b: seq<string>)
    ensures NonEmptyTrims(a + b) == NonEmptyTrims(a) + NonEmptyTrims(b)
    ensures |b| == 1 ==> NonEmptyTrims(b) == (if Trim(b[0]) != [] then [Trim(b[0])] else [])
    decreases |b|
  {
    if b != [] {
      var init := b[..|b| - 1];
      assert (a + b)[..|a + b| - 1] == a + init;
      assert (a + b)[|a + b| - 1] == b[|b| - 1];
      NonEmptyTrimsAppend(a, init);
      var t := Trim(b[|b| - 1]);
      var last := if t != [] then [t] else [];
      assert NonEmptyTrims(b) == NonEmptyTrims(init) + last;
      assert NonEmptyTrims(a + b) == NonEmptyTrims(a + init) + last;
      if |b| == 1 {
        assert init == [];
      }
    } else {
      assert a + b == a;
    }
  }

  lemma AllSolidSnoc(r: seq<string>, t: string)
    requires AllSolid(r) && Trimmed(t)
    ensures t != [] ==> AllSolid(r + [t])
  {
    if t != [] {
      assert forall k :: 0 <= k < |r| ==> (r + [t])[k] == r[k];
    }
  }

  lemma {:induction false} SegmentsFromCount(text: string, lt: string, p: nat)
    requires |lt| == |text| && p < |lt| && LessonMarkerAt(lt, p)
    requires lt == ToLower(text)
    ensures |SegmentsFrom(text, lt, p)| == CountMarkers(lt, p)
    ensures AllSolid(SegmentsFrom(text, lt, p))
    decreases |lt| - p
  {
    var q := NextMarker(lt, p + 1);
    NoMarkersBetween(lt, p + 1);
    MarkerStartsSolid(text, lt, p);
    var seg := text[p..q];
    assert seg[0] == text[p];
    TrimKeepsSolidStart(seg);
    var segs := SegmentsFrom(text, lt, p);
    assert CountMarkers(lt, p) == 1 + CountMarkers(lt, q);
    if q < |lt| {
      SegmentsFromCount(text, lt, q);
      var rest := SegmentsFrom(text, lt, q);
      assert segs == [Trim(seg)] + rest;
      AllSolidCons(Trim(seg), rest);
    } else {
      assert segs == [Trim(seg)] + [];
      AllSolidCons(Trim(seg), []);
    }
  }

  /** `splitLessonSegments` yields one non-empty, trimmed segment per
      `lesson N:` marker of the text. */
  lemma SplitLessonSegmentsCount(text: string)
    ensures |SplitLessonSegments(text)| == CountMarkers(ToLower(text), 0)
    ensures AllSolid(SplitLessonSegments(text))
    ensures HasLessonMarker(text) <==> |SplitLessonSegments(text)| > 0
  {
    var lt := ToLower(text);
    NoMarkersBetween(lt, 0);
    if NextMarker(lt, 0) < |lt| {
      SegmentsFromCount(text, lt, NextMarker(lt, 0));
    }
  }

  // ---------------------------------------------------------------------
  // cleanFAQText
  // ---------------------------------------------------------------------

  /** `replace(/^\d+\.\s*`/, '')`. */
  function DropNumberPrefix(s: string): string {
    var e := DigitEnd(s, 0);
    if 0 < e < |s| && s[e] == '.' then s[SkipSpaces(s, e + 1)..] else s
  }

  /** `replace(/^Q:\s*`/i, '')`. */
  function DropQPrefix(s: string): string {
    if |s| >= 2 && (s[0] == 'Q' || s[0] == 'q') && s[1] == ':' then s[SkipSpaces(s, 2)..] else s
  }

  predicate NoDoubleSpace(s: string) {
    forall k :: 0 <= k < |s| - 1 ==> !(IsSpace(s[k]) && IsSpace(s[k + 1]))
  }

  predicate SpacesAreBlanks(s: string) {
    forall k :: 0 <= k < |s| && IsSpace(s[k]) ==> s[k] == ' '
  }

  /** `replace(/\s+/g, ' ')`: every run of white space becomes one blank. */
  function CollapseSpaces(s: string): (r: string)
    ensures r == [] <==> s == []
    ensures r != [] ==> (IsSpace(r[0]) <==> IsSpace(s[0]))
    ensures NoDoubleSpace(r) && SpacesAreBlanks(r)
    decreases |s|
  {
    if s == [] then []
    else if IsSpace(s[0]) then
      var rest := s[SkipSpaces(s, 0)..];
      [' '] + CollapseSpaces(rest)
    else [s[0]] + CollapseSpaces(s[1..])
  }

  predicate Normalized(s: string) {
    (s == [] || (!IsSpace(s[0]) && !IsSpace(s[|s| - 1]))) && NoDoubleSpace(s) && SpacesAreBlanks(s)
  }

  lemma TrimNormalizes(c: string)
    requires NoDoubleSpace(c) && SpacesAreBlanks(c)
    ensures Normalized(Trim(c))
  {
    var r := Trim(c);
    var a := TrimInfix(c);
    forall k | 0 <= k < |r| ensures r[k] == c[a + k] { }
  }

  /** `cleanFAQText`. */
  function CleanFaqText(text: string): string {
    if text == [] then []
    else Trim(CollapseSpaces(DropQPrefix(DropNumberPrefix(text))))
  }

  /** `cleanFAQText` returns text with no white space at either end, and
      with every run of white space collapsed to a single blank. */
  lemma CleanFaqTextNormalized(text: string)
    ensures Normalized(CleanFaqText(text))
  {
    if text != [] {
      TrimNormalizes(CollapseSpaces(DropQPrefix(DropNumberPrefix(text))));
    }
  }

  lemma {:induction false} CollapseNormalized(s: string)
    requires NoDoubleSpace(s) && SpacesAreBlanks(s)
    ensures CollapseSpaces(s) == s
    decreases |s|
  {
    if s != [] {
      if IsSpace(s[0]) {
        assert SkipSpaces(s, 0) == 1 by {
          assert s == [] || |s| == 1 || !IsSpace(s[1]);
        }
      }
      assert NoDoubleSpace(s[1..]) && SpacesAreBlanks(s[1..]) by {
        forall k | 0 <= k < |s[1..]| ensures s[1..][k] == s[k + 1] { }
      }
      CollapseNormalized(s[1..]);
    }
  }

  /** A question that is already clean, and does not start with a number or a
      `Q:` marker, passes through `cleanFAQText` unchanged. */
  lemma CleanFaqTextFixesNormalized(s: string)
    requires Normalized(s)
    requires DropNumberPrefix(s) == s && DropQPrefix(s) == s
    ensures CleanFaqText(s) == s
  {
    if s != [] {
      CollapseNormalized(s);
    }
  }
}
