/** The blog classifier `extractBlogContent` (lines 746-881). It reads every
    element of the converted document in document order, cuts the document
    at the first metadata line, drops the subtrees of link and alt-text
    lines, picks a title, and walks what is left, turning headings,
    paragraphs, lists and images into content units.

    The document is the list of all its elements in document order; each
    element knows how many descendants follow it, so a subtree is a run of
    the list. Removing an element marks its subtree as gone in a mask of
    live elements over that fixed list. */
module Blog {
  import opened Strings
  import opened Blocks
  import opened Patterns

  /** One element of `querySelectorAll('*')`; its `descendants` are the
      elements that directly follow it. */
  datatype Element = Element(block: Block, descendants: nat)

  /** A content unit of `blogData.content`. */
  datatype Unit =
    | Heading(level: nat, className: string, content: string)
    | Paragraph(content: string)
    | List(ordered: bool, items: seq<string>)
    | Image(alt: string, placeholder: string)

  /** `blogData`. */
  datatype BlogData = BlogData(title: string, content: seq<Unit>, imageCount: nat)

  // ---------------------------------------------------------------------
  // Markers (lines 752-753)
  // ---------------------------------------------------------------------

  const MetaMarkers: seq<string> := ["Meta Description", "Meta Title", "meta description", "meta title",
                                     "Slug", "Category", "category", "slug", "relevant courses"]

  const LineRemoveMarkers: seq<string> := ["link:", "alt-text", "alt text:", "title text:"]

  /** `markers.some(m => s.startsWith(m))`. */
  predicate StartsWithAny(s: string, markers: seq<string>) {
    exists k | 0 <= k < |markers| :: StartsWith(s, markers[k])
  }

  /** A metadata line: it cuts the document and stops the walker. */
  predicate MetaLine(b: Block) {
    Text(b) != [] && StartsWithAny(ToLower(Text(b)), MetaMarkers)
  }

  /** A link or alt-text line: it is removed with its subtree. */
  predicate LineMarked(b: Block) {
    Text(b) != [] && StartsWithAny(ToLower(Text(b)), LineRemoveMarkers)
  }

  /** `isFaq`. */
  predicate IsFaq(text: string) {
    Contains(ToLower(text), "faq") || Contains(ToLower(text), "frequently asked questions")
  }

  // ---------------------------------------------------------------------
  // Truncation (lines 755-783)
  // ---------------------------------------------------------------------

  /** `removeFromIndex`, or the number of elements when there is none. */
  function MetaBound(es: seq<Element>): (m: nat)
    ensures m <= |es|
    ensures m < |es| ==> MetaLine(es[m].block)
    ensures forall k :: 0 <= k < m ==> !MetaLine(es[k].block)
  {
    MetaBoundFrom(es, 0)
  }

  function MetaBoundFrom(es: seq<Element>, i: nat): (m: nat)
    requires i <= |es|
    ensures i <= m <= |es|
    ensures m < |es| ==> MetaLine(es[m].block)
    ensures forall k :: i <= k < m ==> !MetaLine(es[k].block)
    decreases |es| - i
  {
    if i == |es| || MetaLine(es[i].block) then i else MetaBoundFrom(es, i + 1)
  }

  /** Element `k` lies in the subtree of element `j`. */
  predicate InSubtree(es: seq<Element>, j: nat, k: nat)
    requires j < |es|
  {
    j <= k <= j + es[j].descendants
  }

  /** Element `k` lies in the subtree of a link or alt-text line among the
      first `upto` elements. */
  predicate Covered(es: seq<Element>, upto: nat, k: nat)
    requires upto <= |es|
  {
    upto > 0 && ((LineMarked(es[upto - 1].block) && InSubtree(es, upto - 1, k)) || Covered(es, upto - 1, k))
  }

  /** The live elements after truncation. */
  function AfterTruncation(es: seq<Element>): (alive: seq<bool>)
    ensures |alive| == |es|
    ensures forall k :: 0 <= k < |es| ==>
              alive[k] == (k < MetaBound(es) && !Covered(es, MetaBound(es), k))
  {
    var m := MetaBound(es);
    seq(|es|, k requires 0 <= k < |es| => k < m && !Covered(es, m, k))
  }

  /** Marks the subtree of element `r` as removed. */
  function RemoveSubtree(es: seq<Element>, alive: seq<bool>, r: nat): (alive': seq<bool>)
    requires |alive| == |es| && r < |es|
    ensures |alive'| == |es|
    ensures forall k :: 0 <= k < |es| ==> alive'[k] == (alive[k] && !InSubtree(es, r, k))
  {
    seq(|es|, k requires 0 <= k < |es| => alive[k] && !InSubtree(es, r, k))
  }

  // ---------------------------------------------------------------------
  // The title (lines 791-824)
  // ---------------------------------------------------------------------

  /** The first live element at or after `i` whose block satisfies `p`. */
  function FirstAlive(es: seq<Element>, alive: seq<bool>, p: Block -> bool, i: nat): (r: Option<nat>)
    requires |alive| == |es|
    ensures r.Some? ==> i <= r.value < |es| && alive[r.value] && p(es[r.value].block)
    ensures r.Some? ==> forall k :: i <= k < r.value ==> !(alive[k] && p(es[k].block))
    ensures r.None? ==> forall k :: i <= k < |es| ==> !(alive[k] && p(es[k].block))
    decreases |es| - i
  {
    if i >= |es| then None
    else if alive[i] && p(es[i].block) then Some(i)
    else FirstAlive(es, alive, p, i + 1)
  }

  predicate IsH1(b: Block) { b.tag == H(1) }

  /** A paragraph the fallback accepts as a title. */
  predicate TitleParagraph(b: Block) {
    b.tag == P && Text(b) != [] && 10 < |Text(b)| < 200 && !IsFaq(Text(b))
  }

  /** `text.split('.')[0]`: the text before its first `.`. */
  function BeforeDot(text: string): (r: string)
    ensures |r| <= |text| && r == text[..|r|]
    ensures forall k :: 0 <= k < |r| ==> r[k] != '.'
    ensures |r| < |text| ==> text[|r|] == '.'
  {
    if HasChar(text, '.') then text[..FirstIndexOf(text, '.')] else text
  }

  /** An element the last fallback takes its title from. */
  predicate TitleCandidate(b: Block) {
    Text(b) != [] && |Text(b)| > 5 && !IsFaq(Text(b)) && |BeforeDot(Text(b))| > 5
  }

  /** The chosen title and the element removed with it, if any. */
  datatype TitleChoice = TitleChoice(title: string, removed: Option<nat>)

  /** The three title fallbacks in their order. */
  function ChooseTitle(es: seq<Element>, alive: seq<bool>): (c: TitleChoice)
    requires |alive| == |es|
    ensures c.removed.Some? ==> c.removed.value < |es| && alive[c.removed.value]
                                && c.title == Text(es[c.removed.value].block)
  {
    var h1 := FirstAlive(es, alive, IsH1, 0);
    if h1.Some? && Text(es[h1.value].block) != [] && !IsFaq(Text(es[h1.value].block)) then
      TitleChoice(Text(es[h1.value].block), h1)
    else
      match FirstAlive(es, alive, TitleParagraph, 0)
      case Some(p) => TitleChoice(Text(es[p].block), Some(p))
      case None =>
        match FirstAlive(es, alive, TitleCandidate, 0)
        case Some(c) => TitleChoice(BeforeDot(Text(es[c].block)), None)
        case None => TitleChoice("", None)
  }

  lemma ContainsPrefix(s: string, n: nat, t: string)
    requires n <= |s| && Contains(s[..n], t)
    ensures Contains(s, t)
  {
    var i :| 0 <= i <= |s[..n]| - |t| && InfixAt(s[..n], t, i);
    assert s[i..i + |t|] == s[..n][i..i + |t|];
    assert InfixAt(s, t, i);
  }

  lemma FaqInPrefix(text: string, n: nat)
    requires n <= |text| && IsFaq(text[..n])
    ensures IsFaq(text)
  {
    var lt := ToLower(text);
    assert ToLower(text[..n]) == lt[..n];
    if Contains(lt[..n], "faq") {
      ContainsPrefix(lt, n, "faq");
    } else {
      ContainsPrefix(lt, n, "frequently asked questions");
    }
  }

  /** The title never mentions the FAQ, it is longer than five characters
      unless it came from the first `h1`, and when no fallback matched it
      is empty. */
  lemma TitleNotFaq(es: seq<Element>, alive: seq<bool>)
    requires |alive| == |es|
    ensures !IsFaq(ChooseTitle(es, alive).title)
    ensures var c := ChooseTitle(es, alive);
            c.title == [] || |c.title| > 5 || (c.removed.Some? && IsH1(es[c.removed.value].block))
  {
    var h1 := FirstAlive(es, alive, IsH1, 0);
    if !(h1.Some? && Text(es[h1.value].block) != [] && !IsFaq(Text(es[h1.value].block))) {
      if FirstAlive(es, alive, TitleParagraph, 0).None? {
        match FirstAlive(es, alive, TitleCandidate, 0)
        case Some(c) =>
          var text := Text(es[c].block);
          var r := BeforeDot(text);
          if IsFaq(r) {
            FaqInPrefix(text, |r|);
          }
        case None =>
      }
    }
  }

  // ---------------------------------------------------------------------
  // The walker (lines 826-878)
  // ---------------------------------------------------------------------

  /** The units so far and `imageCount`. */
  datatype Walk = Walk(units: seq<Unit>, imageCount: nat)

  /** `\`[Image ${n}]\``. */
  function ImagePlaceholder(n: nat): string {
    "[Image " + NatToString(n) + "]"
  }

  /** The unit for an image element, the `n`-th one. */
  function ImageUnit(b: Block, n: nat): Unit {
    Image(if b.alt != [] then b.alt else "Blog image " + NatToString(n), ImagePlaceholder(n))
  }

  /** A paragraph whose markup keeps some text once its tags are stripped. */
  predicate HasText(html: string) {
    html != [] && Trim(StripTags(html)) != []
  }

  /** What the walker emits for a live element it does not skip or stop at. */
  function Emit(b: Block, w: Walk): Walk {
    if IsHeading(b.tag) then
      w.(units := w.units + [Heading(b.tag.level, "fs-" + NatToString(b.tag.level), Trim(b.inner))])
    else if b.tag == P then
      (if HasText(Trim(b.inner)) then w.(units := w.units + [Paragraph(Trim(b.inner))]) else w)
    else if b.tag == UL || b.tag == OL then
      var items := NonEmptyTrims(b.items);
      (if items != [] then w.(units := w.units + [List(b.tag == OL, items)]) else w)
    else if b.tag == Img then
      Walk(w.units + [ImageUnit(b, w.imageCount + 1)], w.imageCount + 1)
    else w
  }

  /** The walker stops at a metadata line or at a heading that mentions the FAQ. */
  predicate StopsWalk(b: Block) {
    var lt := ToLower(Text(b));
    Text(b) != [] && (StartsWithAny(lt, MetaMarkers)
                      || (IsHeading(b.tag) && (Contains(lt, "faq") || Contains(lt, "frequently asked questions"))))
  }

  /** The walker's step as written: an element with no text is skipped, and
      that includes every `<img>`. `None` is the `break`. */
  function WrittenStep(b: Block, w: Walk): Option<Walk> {
    if Text(b) == [] then Some(w)
    else if StopsWalk(b) then None
    else Some(Emit(b, w))
  }

  /** The walker's step with images exempt from the empty-text skip. */
  function WalkStep(b: Block, w: Walk): Option<Walk> {
    if Text(b) == [] && b.tag == Img then Some(Emit(b, w)) else WrittenStep(b, w)
  }

  /** The walk over the live elements from `i` on; `written` picks the step. */
  function WalkFrom(es: seq<Element>, alive: seq<bool>, i: nat, w: Walk, written: bool): Walk
    requires |alive| == |es|
    decreases |es| - i
  {
    if i >= |es| then w
    else if !alive[i] then WalkFrom(es, alive, i + 1, w, written)
    else match (if written then WrittenStep(es[i].block, w) else WalkStep(es[i].block, w))
      case None => w
      case Some(w') => WalkFrom(es, alive, i + 1, w', written)
  }

  /** `extractBlogContent` with the chosen step. */
  function BlogContentWith(es: seq<Element>, written: bool): BlogData {
    var c := ChooseTitle(es, AfterTruncation(es));
    var w := WalkFrom(es, WalkMask(es), 0, Walk([], 0), written);
    BlogData(c.title, w.units, w.imageCount)
  }

  /** The live elements the walker runs over: truncation, then the removal
      of the title element. */
  function WalkMask(es: seq<Element>): (alive: seq<bool>)
    ensures |alive| == |es|
  {
    var alive := AfterTruncation(es);
    var c := ChooseTitle(es, alive);
    if c.removed.Some? then RemoveSubtree(es, alive, c.removed.value) else alive
  }

  /** `extractBlogContent` as written. */
  function WrittenBlogContent(es: seq<Element>): BlogData {
    BlogContentWith(es, true)
  }

  /** `extractBlogContent` with images kept. */
  function BlogContent(es: seq<Element>): BlogData {
    BlogContentWith(es, false)
  }

  // ---------------------------------------------------------------------
  // What the walker guarantees
  // ---------------------------------------------------------------------

  function CountImages(units: seq<Unit>): nat {
    if units == [] then 0
    else CountImages(units[..|units| - 1]) + (if units[|units| - 1].Image? then 1 else 0)
  }

  /** Every unit is well-formed: a paragraph is trimmed and keeps text after tag stripping,
      a list has at least one item and all its items are non-empty and
      trimmed, and the `n`-th image carries `[Image n]` and some alt text. */
  predicate UnitOk(units: seq<Unit>, k: nat)
    requires k < |units|
  {
    match units[k]
    case Paragraph(c) => HasText(c) && Trimmed(c)
    case List(_, items) => items != [] && AllSolid(items)
    case Image(alt, placeholder) => alt != [] && placeholder == ImagePlaceholder(CountImages(units[..k]) + 1)
    case Heading(level, _, _) => 1 <= level <= 6
  }

  predicate WalkOk(w: Walk) {
    w.imageCount == CountImages(w.units) && forall k :: 0 <= k < |w.units| ==> UnitOk(w.units, k)
  }

  /** Appending a well-formed unit keeps a walk well-formed. */
  lemma AppendOk(w: Walk, u: Unit, count: nat)
    requires WalkOk(w)
    requires count == CountImages(w.units + [u])
    requires UnitOk(w.units + [u], |w.units|)
    ensures WalkOk(Walk(w.units + [u], count))
  {
    var units := w.units + [u];
    forall k | 0 <= k < |w.units| ensures UnitOk(units, k) {
      assert units[k] == w.units[k];
      assert units[..k] == w.units[..k];
      assert UnitOk(w.units, k);
    }
  }

  lemma EmitOk(b: Block, w: Walk)
    requires WalkOk(w)
    ensures WalkOk(Emit(b, w))
  {
    var w' := Emit(b, w);
    if |w'.units| > |w.units| {
      var u := w'.units[|w.units|];
      assert w'.units == w.units + [u];
      assert (w.units + [u])[..|w.units|] == w.units;
      AppendOk(w, u, w'.imageCount);
    }
  }

  lemma {:induction false} WalkFromOk(es: seq<Element>, alive: seq<bool>, i: nat, w: Walk, written: bool)
    requires |alive| == |es| && WalkOk(w)
    ensures WalkOk(WalkFrom(es, alive, i, w, written))
    decreases |es| - i
  {
    if i < |es| {
      if !alive[i] {
        WalkFromOk(es, alive, i + 1, w, written);
      } else {
        var b := es[i].block;
        EmitOk(b, w);
        match (if written then WrittenStep(b, w) else WalkStep(b, w))
        case None =>
        case Some(w') => WalkFromOk(es, alive, i + 1, w', written);
      }
    }
  }

  /** Both walkers produce only well-formed units, and `imageCount` is the
      number of image units, the `n`-th of which is `[Image n]`. */
  lemma BlogContentOk(es: seq<Element>, written: bool)
    ensures var d := BlogContentWith(es, written);
            d.imageCount == CountImages(d.content)
            && forall k :: 0 <= k < |d.content| ==> UnitOk(d.content, k)
  {
    WalkFromOk(es, WalkMask(es), 0, Walk([], 0), written);
  }

  /** Every `<img>` has an empty `textContent`. */
  predicate ImagesHaveNoText(es: seq<Element>) {
    forall k :: 0 <= k < |es| && es[k].block.tag == Img ==> Text(es[k].block) == []
  }

  lemma {:induction false} WrittenWalkHasNoImages(es: seq<Element>, alive: seq<bool>, i: nat, w: Walk)
    requires |alive| == |es| && ImagesHaveNoText(es) && w.imageCount == 0 && CountImages(w.units) == 0
    ensures WalkFrom(es, alive, i, w, true).imageCount == 0
    ensures CountImages(WalkFrom(es, alive, i, w, true).units) == 0
    decreases |es| - i
  {
    if i < |es| {
      var b := es[i].block;
      if alive[i] {
        match WrittenStep(b, w)
        case None =>
        case Some(w') =>
          if Text(b) != [] {
            var u := Emit(b, w).units;
            if |u| > |w.units| {
              assert u[..|w.units|] == w.units;
            }
          }
          WrittenWalkHasNoImages(es, alive, i + 1, w');
      } else {
        WrittenWalkHasNoImages(es, alive, i + 1, w);
      }
    }
  }

  /** The walker as written never emits an image: `<img>` elements have no
      text, so the empty-text skip passes over them before the image branch
      is reached, and `imageCount` stays 0. */
  lemma WrittenBlogDropsImages(es: seq<Element>)
    requires ImagesHaveNoText(es)
    ensures WrittenBlogContent(es).imageCount == 0
    ensures CountImages(WrittenBlogContent(es).content) == 0
  {
    WrittenWalkHasNoImages(es, WalkMask(es), 0, Walk([], 0));
  }

  /** With images kept, a live `<img>` the walk reaches becomes an image
      unit: for a document of one image, the walk yields exactly that unit. */
  lemma BlogKeepsImage(b: Block)
    requires b.tag == Img && Text(b) == []
    ensures BlogContent([Element(b, 0)]).content == [ImageUnit(b, 1)]
    ensures BlogContent([Element(b, 0)]).imageCount == 1
    ensures WrittenBlogContent([Element(b, 0)]).content == []
  {
    var es := [Element(b, 0)];
    var alive := AfterTruncation(es);
    assert MetaBound(es) == 1;
    assert !Covered(es, 1, 0);
    assert alive == [true];
    var c := ChooseTitle(es, alive);
    assert FirstAlive(es, alive, IsH1, 0).None?;
    assert FirstAlive(es, alive, TitleParagraph, 0).None?;
    assert FirstAlive(es, alive, TitleCandidate, 0).None?;
    assert c == TitleChoice("", None);
    var w0 := Walk([], 0);
    var w1 := Walk([ImageUnit(b, 1)], 1);
    assert w0.units + [ImageUnit(b, 1)] == w1.units;
    assert Emit(b, w0) == w1;
    assert WalkFrom(es, alive, 1, w1, false) == w1;
    assert WrittenStep(b, w0) == Some(w0);
    assert WalkFrom(es, alive, 1, w0, true) == w0;
  }

  /** The live elements the walker with images kept reaches from `i`, in
      document order: those before the first live element that stops it. */
  function Visited(es: seq<Element>, alive: seq<bool>, i: nat): seq<Block>
    requires |alive| == |es|
    decreases |es| - i
  {
    if i >= |es| then []
    else if !alive[i] then Visited(es, alive, i + 1)
    else if StopsWalk(es[i].block) then []
    else [es[i].block] + Visited(es, alive, i + 1)
  }

  /** The `<img>` elements among `bs`, in order. */
  function Images(bs: seq<Block>): (r: seq<Block>)
    ensures forall k :: 0 <= k < |r| ==> r[k].tag == Img
  {
    if bs == [] then [] else (if bs[0].tag == Img then [bs[0]] else []) + Images(bs[1..])
  }

  /** The image units among `units`, in order. */
  function ImagesOf(units: seq<Unit>): seq<Unit> {
    if units == [] then []
    else ImagesOf(units[..|units| - 1]) + (if units[|units| - 1].Image? then [units[|units| - 1]] else [])
  }

  /** The units of the images `bs`, numbered from `n`. */
  function ImageUnits(bs: seq<Block>, n: nat): (r: seq<Unit>)
    ensures |r| == |bs|
  {
    seq(|bs|, k requires 0 <= k < |bs| => ImageUnit(bs[k], n + k))
  }

  lemma ImagesOfSnoc(units: seq<Unit>, u: Unit)
    ensures ImagesOf(units + [u]) == ImagesOf(units) + (if u.Image? then [u] else [])
  {
    assert (units + [u])[..|units|] == units;
  }

  /** One emission adds an image unit, numbered on from `imageCount`,
      exactly for an `<img>`. */
  lemma EmitImages(b: Block, w: Walk)
    ensures ImagesOf(Emit(b, w).units) == ImagesOf(w.units) + (if b.tag == Img then [ImageUnit(b, w.imageCount + 1)] else [])
    ensures Emit(b, w).imageCount == w.imageCount + (if b.tag == Img then 1 else 0)
  {
    if b.tag == Img {
      ImagesOfSnoc(w.units, ImageUnit(b, w.imageCount + 1));
    } else if IsHeading(b.tag) {
      ImagesOfSnoc(w.units, Heading(b.tag.level, "fs-" + NatToString(b.tag.level), Trim(b.inner)));
    } else if b.tag == P {
      if HasText(Trim(b.inner)) {
        ImagesOfSnoc(w.units, Paragraph(Trim(b.inner)));
      }
    } else if b.tag == UL || b.tag == OL {
      var items := NonEmptyTrims(b.items);
      if items != [] {
        ImagesOfSnoc(w.units, List(b.tag == OL, items));
      }
    }
  }

  /** A step that does not stop adds an image unit exactly for an `<img>`. */
  lemma WalkStepImages(b: Block, w: Walk)
    requires !StopsWalk(b)
    ensures WalkStep(b, w).Some?
    ensures var w' := WalkStep(b, w).value;
            ImagesOf(w'.units) == ImagesOf(w.units) + (if b.tag == Img then [ImageUnit(b, w.imageCount + 1)] else [])
            && w'.imageCount == w.imageCount + (if b.tag == Img then 1 else 0)
  {
    if !(Text(b) == [] && b.tag != Img) {
      EmitImages(b, w);
    }
  }

  lemma ImageUnitsCons(b: Block, rest: seq<Block>, n: nat)
    ensures ImageUnits([b] + rest, n) == [ImageUnit(b, n)] + ImageUnits(rest, n + 1)
  {
  }

  /** A live element the walker does not stop at: the walk goes on from
      the next element with the walk state `w'` that adds its image unit, if
      it is an image, and the element is the first one visited. */
  lemma WalkGoesOn(es: seq<Element>, alive: seq<bool>, i: nat, w: Walk) returns (w': Walk)
    requires |alive| == |es| && i < |es| && alive[i] && !StopsWalk(es[i].block)
    ensures WalkFrom(es, alive, i, w, false) == WalkFrom(es, alive, i + 1, w', false)
    ensures var b := es[i].block;
            ImagesOf(w'.units) == ImagesOf(w.units) + (if b.tag == Img then [ImageUnit(b, w.imageCount + 1)] else [])
            && w'.imageCount == w.imageCount + (if b.tag == Img then 1 else 0)
            && Visited(es, alive, i) == [b] + Visited(es, alive, i + 1)
  {
    WalkStepImages(es[i].block, w);
    w' := WalkStep(es[i].block, w).value;
  }

  /** A dead element is passed over, and the walk stops at a live element
      that stops it, or at the end. */
  lemma WalkPasses(es: seq<Element>, alive: seq<bool>, i: nat, w: Walk)
    requires |alive| == |es|
    ensures i < |es| && !alive[i] ==>
              WalkFrom(es, alive, i, w, false) == WalkFrom(es, alive, i + 1, w, false)
              && Visited(es, alive, i) == Visited(es, alive, i + 1)
    ensures (i >= |es| || (alive[i] && StopsWalk(es[i].block))) ==>
              WalkFrom(es, alive, i, w, false) == w && Visited(es, alive, i) == []
  {
    if i < |es| && alive[i] && StopsWalk(es[i].block) {
      assert WalkStep(es[i].block, w).None?;
    }
  }

  /** The image units that visiting `bs` adds to the images `acc` a walk
      has so far, `n` of them counted. */
  function UnitsFor(bs: seq<Block>, acc: seq<Unit>, n: nat): seq<Unit> {
    if bs == [] then acc
    else if bs[0].tag == Img then UnitsFor(bs[1..], acc + [ImageUnit(bs[0], n + 1)], n + 1)
    else UnitsFor(bs[1..], acc, n)
  }

  lemma VisitCons(b: Block, rest: seq<Block>, acc: seq<Unit>, n: nat)
    ensures UnitsFor([b] + rest, acc, n)
            == if b.tag == Img then UnitsFor(rest, acc + [ImageUnit(b, n + 1)], n + 1) else UnitsFor(rest, acc, n)
    ensures Images([b] + rest) == (if b.tag == Img then [b] else []) + Images(rest)
  {
    assert ([b] + rest)[1..] == rest;
  }

  /** The images a walk with images kept adds from `i` on are those of the
      elements it visits, and it counts each. */
  lemma {:induction false} WalkImages(es: seq<Element>, alive: seq<bool>, i: nat, w: Walk)
    requires |alive| == |es|
    ensures var w' := WalkFrom(es, alive, i, w, false);
            ImagesOf(w'.units) == UnitsFor(Visited(es, alive, i), ImagesOf(w.units), w.imageCount)
            && w'.imageCount == w.imageCount + |Images(Visited(es, alive, i))|
    decreases |es| - i
  {
    WalkPasses(es, alive, i, w);
    if i < |es| && !alive[i] {
      WalkImages(es, alive, i + 1, w);
    } else if i < |es| && !StopsWalk(es[i].block) {
      var b := es[i].block;
      var w1 := WalkGoesOn(es, alive, i, w);
      VisitCons(b, Visited(es, alive, i + 1), ImagesOf(w.units), w.imageCount);
      if b.tag != Img {
        assert ImagesOf(w.units) + [] == ImagesOf(w.units);
      }
      WalkImages(es, alive, i + 1, w1);
    }
  }

  /** The units visiting `bs` adds are its images, numbered on from `n`. */
  lemma {:induction false} UnitsForAre(bs: seq<Block>, acc: seq<Unit>, n: nat)
    ensures UnitsFor(bs, acc, n) == acc + ImageUnits(Images(bs), n + 1)
    decreases |bs|
  {
    if bs == [] {
      assert acc + [] == acc;
    } else {
      var b, rest := bs[0], bs[1..];
      assert bs == [b] + rest;
      VisitCons(b, rest, acc, n);
      if b.tag == Img {
        var u := ImageUnit(b, n + 1);
        UnitsForAre(rest, acc + [u], n + 1);
        ImageUnitsCons(b, Images(rest), n + 1);
        assert (acc + [u]) + ImageUnits(Images(rest), n + 2) == acc + ([u] + ImageUnits(Images(rest), n + 2));
      } else {
        UnitsForAre(rest, acc, n);
      }
    }
  }

  /** With images kept, every live `<img>` before the stop becomes one image
      unit, in document order: the `k`-th carries `[Image k]` and its own
      `alt`, or `Blog image k` when it has none; `imageCount` is their number. */
  lemma BlogImages(es: seq<Element>)
    ensures var d := BlogContent(es);
            var imgs := Images(Visited(es, WalkMask(es), 0));
            var units := ImagesOf(d.content);
            d.imageCount == |imgs| && |units| == |imgs|
            && forall k :: 0 <= k < |imgs| ==>
                 units[k] == Image(if imgs[k].alt != [] then imgs[k].alt else "Blog image " + NatToString(k + 1),
                                   ImagePlaceholder(k + 1))
  {
    var alive := WalkMask(es);
    var w := WalkFrom(es, alive, 0, Walk([], 0), false);
    assert BlogContent(es) == BlogData(ChooseTitle(es, AfterTruncation(es)).title, w.units, w.imageCount);
    var imgs := Images(Visited(es, alive, 0));
    WalkImages(es, alive, 0, Walk([], 0));
    assert ImagesOf([]) == [];
    UnitsForAre(Visited(es, alive, 0), [], 0);
    assert ImagesOf(w.units) == ImageUnits(imgs, 1);
  }


  // ---------------------------------------------------------------------
  // The extractor as the source runs it
  // ---------------------------------------------------------------------

  /** The truncation loop (lines 758-774) and the removal behind it
      (lines 776-783). */
  method Truncate(es: seq<Element>) returns (alive: seq<bool>)
    ensures alive == AfterTruncation(es)
  {
    alive := seq(|es|, _ => true);
    var removeFrom := |es|;
    var i := 0;
    while i < |es|
      invariant i <= |es| && |alive| == |es|
      invariant forall k :: 0 <= k < i ==> !MetaLine(es[k].block)
      invariant forall k :: 0 <= k < |es| ==> alive[k] == !Covered(es, i, k)
    {
      var el := es[i].block;
      var text := Text(el);
      if text != [] {
        var lowerText := ToLower(text);
        if StartsWithAny(lowerText, MetaMarkers) {
          removeFrom := i;
          break;
        }
        if StartsWithAny(lowerText, LineRemoveMarkers) {
          alive := RemoveSubtree(es, alive, i);
        }
      }
      i := i + 1;
    }
    assert removeFrom == MetaBound(es) by {
      assert MetaBound(es) == MetaBoundFrom(es, 0);
      if removeFrom == |es| {
        assert i == |es|;
      }
    }
    alive := seq(|es|, k requires 0 <= k < |es| => alive[k] && k < removeFrom);
  }

  /** The title fallbacks (lines 792-824). */
  method PickTitle(es: seq<Element>, alive: seq<bool>) returns (c: TitleChoice)
    requires |alive| == |es|
    ensures c == ChooseTitle(es, alive)
  {
    var h1 := FirstAlive(es, alive, IsH1, 0);
    if h1.Some? && Text(es[h1.value].block) != [] && !IsFaq(Text(es[h1.value].block)) {
      return TitleChoice(Text(es[h1.value].block), h1);
    }
    var i := 0;
    while i < |es|
      invariant i <= |es|
      invariant FirstAlive(es, alive, TitleParagraph, i) == FirstAlive(es, alive, TitleParagraph, 0)
      decreases |es| - i
    {
      if alive[i] && TitleParagraph(es[i].block) {
        return TitleChoice(Text(es[i].block), Some(i));
      }
      i := i + 1;
    }
    i := 0;
    while i < |es|
      invariant i <= |es|
      invariant FirstAlive(es, alive, TitleCandidate, i) == FirstAlive(es, alive, TitleCandidate, 0)
      decreases |es| - i
    {
      if alive[i] {
        var text := Text(es[i].block);
        if text != [] && |text| > 5 && !IsFaq(text) {
          var potentialTitle := BeforeDot(text);
          if |potentialTitle| > 5 {
            return TitleChoice(potentialTitle, None);
          }
        }
      }
      i := i + 1;
    }
    return TitleChoice("", None);
  }

  /** One step of the walker, with images kept. */
  method VisitElement(b: Block, w: Walk) returns (stop: bool, w': Walk)
    ensures WalkStep(b, w) == if stop then None else Some(w')
  {
    stop := false;
    w' := w;
    var text := Text(b);
    if text == [] && b.tag != Img {
      return;
    }
    var lowerText := ToLower(text);
    if StartsWithAny(lowerText, MetaMarkers) {
      return true, w;
    }
    if IsHeading(b.tag) && (Contains(lowerText, "faq") || Contains(lowerText, "frequently asked questions")) {
      return true, w;
    }
    if IsHeading(b.tag) {
      var level := b.tag.level;
      w' := w.(units := w.units + [Heading(level, "fs-" + NatToString(level), Trim(b.inner))]);
    } else if b.tag == P {
      var html := Trim(b.inner);
      if html != [] && Trim(StripTags(html)) != [] {
        w' := w.(units := w.units + [Paragraph(html)]);
      }
    } else if b.tag == UL || b.tag == OL {
      var items := NonEmptyTrims(b.items);
      if items != [] {
        w' := w.(units := w.units + [List(b.tag == OL, items)]);
      }
    } else if b.tag == Img {
      var n := w.imageCount + 1;
      var alt := if b.alt != [] then b.alt else "Blog image " + NatToString(n);
      w' := Walk(w.units + [Image(alt, "[Image " + NatToString(n) + "]")], n);
    }
  }

  /** The walker loop (lines 826-878), with images kept. */
  method Walker(es: seq<Element>, alive: seq<bool>) returns (w: Walk)
    requires |alive| == |es|
    ensures w == WalkFrom(es, alive, 0, Walk([], 0), false)
  {
    w := Walk([], 0);
    var i := 0;
    while i < |es|
      invariant i <= |es|
      invariant WalkFrom(es, alive, i, w, false) == WalkFrom(es, alive, 0, Walk([], 0), false)
      decreases |es| - i
    {
      if alive[i] {
        var stop, w' := VisitElement(es[i].block, w);
        if stop {
          return;
        }
        w := w';
      }
      i := i + 1;
    }
  }

  /** `extractBlogContent`, with images kept. */
  method ExtractBlogContent(es: seq<Element>) returns (d: BlogData)
    ensures d == BlogContent(es)
  {
    var alive := Truncate(es);
    var c := PickTitle(es, alive);
    if c.removed.Some? {
      alive := RemoveSubtree(es, alive, c.removed.value);
    }
    var w := Walker(es, alive);
    d := BlogData(c.title, w.units, w.imageCount);
  }
}
