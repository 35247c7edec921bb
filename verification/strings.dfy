/** String helpers used by every extractor: JavaScript's whitespace class,
    `trim`, ASCII case folding, substring tests, digit runs and decimal
    conversion, and the tag-stripping replace `/<[^>]*>/g`. */
module Strings {

  datatype Option<T> = None | Some(value: T)

  /** The characters JavaScript's `\s` and `String.prototype.trim` treat as white space. */
  predicate IsSpace(c: char) {
    c == ' ' || c == '\t' || c == '\n' || c == '\r' || c == '\U{000B}' || c == '\U{000C}'
    || c == '\U{00A0}' || c == '\U{1680}' || ('\U{2000}' <= c <= '\U{200A}')
    || c == '\U{2028}' || c == '\U{2029}' || c == '\U{202F}' || c == '\U{205F}'
    || c == '\U{3000}' || c == '\U{FEFF}'
  }

  /** The characters that `.` in a JavaScript regular expression does not match. */
  predicate IsLineTerminator(c: char) {
    c == '\n' || c == '\r' || c == '\U{2028}' || c == '\U{2029}'
  }

  predicate IsDigit(c: char) { '0' <= c <= '9' }

  predicate NoLineTerminator(s: string) {
    forall k :: 0 <= k < |s| ==> !IsLineTerminator(s[k])
  }

  function TrimStart(s: string): (r: string)
    ensures |r| <= |s|
    ensures r == [] || !IsSpace(r[0])
    ensures (s == [] || !IsSpace(s[0])) ==> r == s
  {
    if s != [] && IsSpace(s[0]) then TrimStart(s[1..]) else s
  }

  /** `TrimStart` drops a run of white space from the front. */
  lemma {:induction false} TrimStartDrops(s: string)
    ensures TrimStart(s) == s[|s| - |TrimStart(s)|..]
    ensures forall k :: 0 <= k < |s| - |TrimStart(s)| ==> IsSpace(s[k])
  {
    if s != [] && IsSpace(s[0]) {
      TrimStartDrops(s[1..]);
    }
  }

  function TrimEnd(s: string): (r: string)
    ensures |r| <= |s| && r == s[..|r|]
    ensures r == [] || !IsSpace(r[|r| - 1])
    ensures (s == [] || !IsSpace(s[|s| - 1])) ==> r == s
  {
    if s != [] && IsSpace(s[|s| - 1]) then TrimEnd(s[..|s| - 1]) else s
  }

  /** `TrimEnd` drops a run of white space from the back. */
  lemma {:induction false} TrimEndDrops(s: string)
    ensures forall k :: |TrimEnd(s)| <= k < |s| ==> IsSpace(s[k])
  {
    if s != [] && IsSpace(s[|s| - 1]) {
      TrimEndDrops(s[..|s| - 1]);
    }
  }

  /** Neither end of `s` is white space. */
  predicate Trimmed(s: string) {
    s == [] || (!IsSpace(s[0]) && !IsSpace(s[|s| - 1]))
  }

  /** `String.prototype.trim`. */
  function Trim(s: string): (r: string)
    ensures Trimmed(r) && |r| <= |s|
    ensures Trimmed(s) ==> r == s
  {
    var a := TrimStart(s);
    var r := TrimEnd(a);
    assert Trimmed(r) by {
      if r != [] {
        assert r[0] == a[0];
      }
    }
    r
  }

  /** `trim` keeps an infix of its input and drops only white space on
      either side of it. */
  lemma TrimInfix(s: string) returns (a: nat)
    ensures a + |Trim(s)| <= |s| && Trim(s) == s[a..a + |Trim(s)|]
    ensures forall k :: 0 <= k < a ==> IsSpace(s[k])
    ensures forall k :: a + |Trim(s)| <= k < |s| ==> IsSpace(s[k])
  {
    var t := TrimStart(s);
    TrimStartDrops(s);
    a := |s| - |t|;
    assert t == s[a..];
    var r := TrimEnd(t);
    TrimEndDrops(t);
    assert r == Trim(s);
    assert r == t[..|r|];
    forall k | 0 <= k < |r| ensures r[k] == s[a + k] {
      assert r[k] == t[k];
    }
    forall k | a + |r| <= k < |s| ensures IsSpace(s[k]) {
      assert s[k] == t[k - a];
    }
  }

  function LowerChar(c: char): char {
    if 'A' <= c <= 'Z' then (c as int + 32) as char else c
  }

  function UpperChar(c: char): char {
    if 'a' <= c <= 'z' then (c as int - 32) as char else c
  }

  /** ASCII `toLowerCase`; leaves every other character as it is. */
  function ToLower(s: string): (r: string)
    ensures |r| == |s|
    ensures forall k :: 0 <= k < |s| ==> r[k] == LowerChar(s[k])
  {
    seq(|s|, k requires 0 <= k < |s| => LowerChar(s[k]))
  }

  predicate StartsWith(s: string, prefix: string) {
    |prefix| <= |s| && s[..|prefix|] == prefix
  }

  predicate EndsWith(s: string, suffix: string) {
    |suffix| <= |s| && s[|s| - |suffix|..] == suffix
  }

  predicate InfixAt(s: string, t: string, i: int) {
    0 <= i <= |s| - |t| && s[i..i + |t|] == t
  }

  /** `s.includes(t)`. */
  predicate Contains(s: string, t: string) {
    exists i | 0 <= i <= |s| - |t| :: InfixAt(s, t, i)
  }

  lemma ContainsInfix(a: string, t: string, b: string)
    ensures Contains(a + t + b, t)
  {
    assert InfixAt(a + t + b, t, |a|);
  }

  /** An occurrence inside `m` is an occurrence inside `a + m + b`. */
  lemma ContainsWithin(a: string, m: string, b: string, t: string)
    requires Contains(m, t)
    ensures Contains(a + m + b, t)
  {
    var i :| 0 <= i <= |m| - |t| && InfixAt(m, t, i);
    var s := a + m + b;
    assert s[|a| + i..|a| + i + |t|] == m[i..i + |t|];
    assert InfixAt(s, t, |a| + i);
  }

  /** An occurrence inside an occurrence is an occurrence. */
  lemma ContainsTrans(s: string, m: string, t: string)
    requires Contains(s, m) && Contains(m, t)
    ensures Contains(s, t)
  {
    var i :| 0 <= i <= |s| - |m| && InfixAt(s, m, i);
    var j :| 0 <= j <= |m| - |t| && InfixAt(m, t, j);
    forall p | 0 <= p < |t| ensures s[i + j + p] == t[p] {
      assert s[i..i + |m|][j + p] == m[j + p];
      assert m[j..j + |t|][p] == t[p];
    }
    assert s[i + j..i + j + |t|] == t;
    assert InfixAt(s, t, i + j);
  }

  /** The pieces of `parts` one after another. */
  function Concat(parts: seq<string>): string {
    if parts == [] then [] else Concat(parts[..|parts| - 1]) + parts[|parts| - 1]
  }

  lemma ConcatSnoc(parts: seq<string>, k: nat)
    requires k < |parts|
    ensures Concat(parts[..k + 1]) == Concat(parts[..k]) + parts[k]
  {
    assert parts[..k + 1][..k] == parts[..k];
  }

  /** What occurs in one piece occurs in the concatenation. */
  lemma {:induction false} ConcatHas(parts: seq<string>, k: nat, t: string)
    requires k < |parts| && Contains(parts[k], t)
    ensures Contains(Concat(parts), t)
  {
    var init := parts[..|parts| - 1];
    if k == |parts| - 1 {
      ContainsWithin(Concat(init), parts[k], [], t);
      assert Concat(init) + parts[k] + [] == Concat(parts);
    } else {
      assert init[k] == parts[k];
      ConcatHas(init, k, t);
      ContainsWithin([], Concat(init), parts[|parts| - 1], t);
      assert [] + Concat(init) + parts[|parts| - 1] == Concat(parts);
    }
  }

  predicate HasChar(s: string, c: char) {
    exists k | 0 <= k < |s| :: s[k] == c
  }

  /** The index just past the run of white space that starts at `i`. */
  function SkipSpaces(s: string, i: nat): (j: nat)
    requires i <= |s|
    ensures i <= j <= |s|
    ensures forall k :: i <= k < j ==> IsSpace(s[k])
    ensures j == |s| || !IsSpace(s[j])
    decreases |s| - i
  {
    if i < |s| && IsSpace(s[i]) then SkipSpaces(s, i + 1) else i
  }

  /** The index just past the run of decimal digits that starts at `i`. */
  function DigitEnd(s: string, i: nat): (j: nat)
    requires i <= |s|
    ensures i <= j <= |s|
    ensures forall k :: i <= k < j ==> IsDigit(s[k])
    ensures j == |s| || !IsDigit(s[j])
    decreases |s| - i
  {
    if i < |s| && IsDigit(s[i]) then DigitEnd(s, i + 1) else i
  }

  predicate AllDigits(d: string) {
    forall k :: 0 <= k < |d| ==> IsDigit(d[k])
  }

  /** `parseInt(d, 10)` for a string of decimal digits. */
  function ParseDigits(d: string): nat
    requires AllDigits(d)
  {
    if d == [] then 0
    else ParseDigits(d[..|d| - 1]) * 10 + (d[|d| - 1] as int - '0' as int)
  }

  /** The decimal numeral of `n`, as a template literal `${n}` prints it. */
  function NatToString(n: nat): (r: string)
    ensures r != [] && AllDigits(r)
  {
    if n < 10 then [('0' as int + n) as char]
    else NatToString(n / 10) + [('0' as int + n % 10) as char]
  }

  /** The numeral printed for `n` reads back as `n`. */
  lemma {:induction false} ParseNatToString(n: nat)
    ensures ParseDigits(NatToString(n)) == n
  {
    if n >= 10 {
      var d := NatToString(n);
      assert d[..|d| - 1] == NatToString(n / 10);
      ParseNatToString(n / 10);
    }
  }

  /** `html.replace(/<[^>]*>/g, '')`: every `<` that has a later `>` starts a
      tag that is removed through that `>`; an unclosed `<` stays. */
  function StripTags(s: string): (r: string)
    ensures |r| <= |s|
    decreases |s|
  {
    if s == [] then []
    else if s[0] == '<' && HasChar(s[1..], '>') then StripTags(s[1 + FirstIndexOf(s[1..], '>') + 1..])
    else [s[0]] + StripTags(s[1..])
  }

  function FirstIndexOf(s: string, c: char): (k: nat)
    requires HasChar(s, c)
    ensures k < |s| && s[k] == c
    ensures forall j :: 0 <= j < k ==> s[j] != c
  {
    if s[0] == c then 0 else FirstIndexOf(s[1..], c) + 1
  }

  predicate NoCompleteTag(r: string) {
    forall i, j :: 0 <= i < j < |r| && r[i] == '<' ==> r[j] != '>'
  }

  lemma {:induction false} StripTagsWithoutClose(s: string)
    requires !HasChar(s, '>')
    ensures StripTags(s) == s
    decreases |s|
  {
    if s != [] {
      assert !HasChar(s[1..], '>') by {
        forall k | 0 <= k < |s[1..]| ensures s[1..][k] != '>' { assert s[1..][k] == s[k + 1]; }
      }
      StripTagsWithoutClose(s[1..]);
    }
  }

  /** What the tag-stripping replace leaves holds no complete `<...>` tag. */
  lemma {:induction false} StripTagsLeavesNoTag(s: string)
    ensures NoCompleteTag(StripTags(s))
    decreases |s|
  {
    if s == [] {
    } else if s[0] == '<' && HasChar(s[1..], '>') {
      StripTagsLeavesNoTag(s[1 + FirstIndexOf(s[1..], '>') + 1..]);
    } else {
      StripTagsLeavesNoTag(s[1..]);
      var r := StripTags(s);
      var t := StripTags(s[1..]);
      assert r == [s[0]] + t;
      if s[0] == '<' {
        StripTagsWithoutClose(s[1..]);
        forall i, j | 0 <= i < j < |r| && r[i] == '<' ensures r[j] != '>' {
          assert r[j] == s[1..][j - 1];
        }
      } else {
        forall i, j | 0 <= i < j < |r| && r[i] == '<' ensures r[j] != '>' {
          assert r[i] == t[i - 1] && r[j] == t[j - 1];
        }
      }
    }
  }

  /** Each item occurs in the joined text. */
  lemma {:induction false} JoinHas(items: seq<string>, sep: string, k: nat)
    requires k < |items|
    ensures Contains(Join(items, sep), items[k])
  {
    var last := items[|items| - 1];
    if |items| == 1 {
      ContainsInfix([], items[0], []);
      assert [] + items[0] + [] == items[0];
    } else if k == |items| - 1 {
      ContainsInfix(Join(items[..|items| - 1], sep) + sep, last, []);
      assert Join(items[..|items| - 1], sep) + sep + last + [] == Join(items, sep);
    } else {
      var init := items[..|items| - 1];
      assert init[k] == items[k];
      JoinHas(init, sep, k);
      ContainsWithin([], Join(init, sep), sep + last, items[k]);
      assert [] + Join(init, sep) + (sep + last) == Join(items, sep);
    }
  }

  /** `items.join(sep)`. */
  function Join(items: seq<string>, sep: string): string {
    if items == [] then []
    else if |items| == 1 then items[0]
    else Join(items[..|items| - 1], sep) + sep + items[|items| - 1]
  }
}
