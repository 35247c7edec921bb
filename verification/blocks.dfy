/** The block elements the document converter hands to the extractors: one
    record per top-level element instead of a live DOM node. */
module Blocks {
  import opened Strings

  /** `element.tagName`; `H(n)` is `Hn`. */
  datatype Tag = H(level: nat) | P | UL | OL | LI | Img | Table | Other

  /** One element of the converted document.
      - `text`: its `textContent` with the surrounding white space removed;
        every extractor reads `textContent` through `trim()`, and the one
        untrimmed test, `!node.textContent` in the blog walker, is implied
        by the trimmed emptiness test that follows it;
      - `inner`, `outer`: its `innerHTML` and `outerHTML`;
      - `items`: the `innerHTML` of every `li` below it (`querySelectorAll('li')`);
      - `nested`: the `innerHTML` of every `li` of the first `ul` below it
        (`querySelector('ul')`), empty when there is none;
      - `alt`: its `alt` attribute, empty when absent. */
  datatype Block = Block(tag: Tag, text: string, inner: string, outer: string,
                         items: seq<string>, nested: seq<string>, alt: string)

  /** `element.textContent.trim()`. */
  function Text(b: Block): string {
    b.text
  }

  /** `tagName.match(/^H[1-6]$/i)`. */
  predicate IsHeading(t: Tag) {
    t.H? && 1 <= t.level <= 6
  }

  /** `tagName.match(/^H[lo-hi]$/i)`. */
  predicate IsHeadingIn(t: Tag, lo: nat, hi: nat) {
    t.H? && lo <= t.level <= hi
  }

  /** The first index at or after `from` whose block satisfies `p`
      (`findIndex`, or a scan that keeps only its first hit). */
  function FindFirst(blocks: seq<Block>, from: nat, p: Block -> bool): (r: Option<nat>)
    ensures r.Some? ==> from <= r.value < |blocks| && p(blocks[r.value])
    ensures r.Some? ==> forall k :: from <= k < r.value ==> !p(blocks[k])
    ensures r.None? ==> forall k :: from <= k < |blocks| ==> !p(blocks[k])
    decreases |blocks| - from
  {
    if from >= |blocks| then None
    else if p(blocks[from]) then Some(from)
    else FindFirst(blocks, from + 1, p)
  }

  /** The scanning loop behind every locator: the first index at or after
      `from` whose block satisfies `p`. */
  method Scan(blocks: seq<Block>, from: nat, p: Block -> bool) returns (r: Option<nat>)
    ensures r == FindFirst(blocks, from, p)
  {
    var i := from;
    while i < |blocks|
      invariant from <= i
      invariant FindFirst(blocks, i, p) == FindFirst(blocks, from, p)
      decreases |blocks| - i
    {
      if p(blocks[i]) {
        return Some(i);
      }
      i := i + 1;
    }
    return None;
  }

  /** A `forEach` over every block that records the first index satisfying
      `p` and ignores later hits. Unlike `Scan` it does not stop early, and
      it ends with the same index. */
  method FirstOfAll(blocks: seq<Block>, p: Block -> bool) returns (r: Option<nat>)
    ensures r == FindFirst(blocks, 0, p)
  {
    r := None;
    var i := 0;
    while i < |blocks|
      invariant i <= |blocks|
      invariant r.Some? ==> r == FindFirst(blocks, 0, p)
      invariant r.None? ==> forall k :: 0 <= k < i ==> !p(blocks[k])
    {
      if p(blocks[i]) && r.None? {
        r := Some(i);
      }
      i := i + 1;
    }
  }
}
