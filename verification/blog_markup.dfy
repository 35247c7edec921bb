/** The blog generator `generateBlogCode` (lines 883-947): the escaped title,
    the optional featured image, one block of markup per content unit, and
    the closing ornament. The `k`-th image unit (counting from 0) takes the
    `k`-th uploaded image URL, or `#` when there is none.

    The fixed text is a `BlogTemplate`; `BlogPage` holds the text the
    generator writes. */
module BlogMarkup {
  import opened Strings
  import opened Escape
  import opened Blog

  datatype BlogTemplate = BlogTemplate(
    titleOpen: string,
    titleClose: string,
    srcOpen: string,        // `<img src="`
    attrEnd: string,        // the closing quote of an attribute
    altOpen: string,
    titleAttrOpen: string,
    imgEnd: string,         // the class of an image and the end of its tag
    h1Open: string,         // a level-1 heading up to its extra class
    space: string,
    classEnd: string,       // the end of a class attribute and of the tag
    h1Close: string,
    hOpen: string,          // `<h`
    classOpen: string,
    hCloseOpen: string,     // `</h`
    blockEnd: string,       // the end of a closing heading tag
    pOpen: string,
    pClose: string,
    tagOpen: string,
    tagOpenEnd: string,
    liOpen: string,
    liClose: string,
    tagCloseOpen: string,
    tagCloseEnd: string,
    ol: string,
    ul: string,
    noImage: string,        // the URL of an image without an upload
    footer: string)         // the ornament and its style sheet

  const BlogPage: BlogTemplate := BlogTemplate(
    "<h1 class=\"text-center fs-1\">",
    "</h1><hr>\n\n",
    "<img src=\"",
    "\"",
    " alt=\"",
    " title=\"",
    " class=\"w-100 mb-3\">\n\n",
    "<h1 class=\"text-center",
    " ",
    "\">",
    "</h1>\n\n",
    "<h",
    " class=\"",
    "</h",
    ">\n\n",
    "<p>",
    "</p>\n\n",
    "<",
    ">\n",
    "  <li>",
    "</li>\n",
    "</",
    ">\n\n",
    "ol",
    "ul",
    "#",
    "<div class=\"fancy-line\"></div><style>.fancy-line{width:60%;margin:20px auto;border-top:2px solid #116466;"
    + "text-align:center;position:relative}.fancy-line::after{content:\"\U{2726} \U{2726} \U{2726}\";position:absolute;"
    + "top:-12px;left:50%;transform:translateX(-50%);background:white;padding:0 10px;color:red}</style>")

  /** `featuredImage`; an empty text stands for a missing field. */
  datatype FeaturedImage = FeaturedImage(url: string, alt: string, title: string)

  /** `imageUrls[k] || "#"`. */
  function ImageUrl(t: BlogTemplate, urls: seq<string>, k: nat): string {
    if k < |urls| && urls[k] != [] then urls[k] else t.noImage
  }

  /** `item.level || 2`. */
  function HeadingLevel(level: nat): nat {
    if level == 0 then 2 else level
  }

  function TitleCode(t: BlogTemplate, title: string): string {
    if title != [] then t.titleOpen + EscapeHtml(title) + t.titleClose else []
  }

  function FeaturedCode(t: BlogTemplate, f: FeaturedImage): string {
    if f.url == [] then []
    else
      t.srcOpen + EscapeAttr(f.url) + t.attrEnd
      + (if f.alt != [] then t.altOpen + EscapeAttr(f.alt) + t.attrEnd else [])
      + (if f.title != [] then t.titleAttrOpen + EscapeAttr(f.title) + t.attrEnd else [])
      + t.imgEnd
  }

  /** The tag of an image unit with the given URL. */
  function ImageTag(t: BlogTemplate, url: string, alt: string): string {
    t.srcOpen + EscapeAttr(url) + t.attrEnd + t.altOpen + EscapeAttr(alt) + t.attrEnd + t.imgEnd
  }

  /** A list item is written only when it is not blank. */
  function ListItem(t: BlogTemplate, li: string): string {
    if Trim(li) != [] then t.liOpen + li + t.liClose else []
  }

  function ListItems(t: BlogTemplate, items: seq<string>): seq<string> {
    seq(|items|, i requires 0 <= i < |items| => ListItem(t, items[i]))
  }

  function HeadingCode(t: BlogTemplate, level: nat, className: string, content: string): string {
    var l := HeadingLevel(level);
    if l == 1 then
      t.h1Open + (if className != [] then t.space + className else []) + t.classEnd + content + t.h1Close
    else
      t.hOpen + NatToString(l) + t.classOpen + className + t.classEnd + content + t.hCloseOpen + NatToString(l) + t.blockEnd
  }

  function ListTag(t: BlogTemplate, ordered: bool): string {
    if ordered then t.ol else t.ul
  }

  function ListCode(t: BlogTemplate, ordered: bool, items: seq<string>): string {
    (t.tagOpen + ListTag(t, ordered) + t.tagOpenEnd) + Concat(ListItems(t, items))
    + (t.tagCloseOpen + ListTag(t, ordered) + t.tagCloseEnd)
  }

  /** The markup of one unit; `index` is the number of image units before it. */
  function UnitCode(t: BlogTemplate, u: Unit, index: nat, urls: seq<string>): string {
    match u
    case Heading(level, className, content) => HeadingCode(t, level, className, content)
    case Paragraph(content) =>
      var c := Trim(content);
      if HasText(c) then t.pOpen + c + t.pClose else []
    case List(ordered, items) => ListCode(t, ordered, items)
    case Image(alt, _) => ImageTag(t, ImageUrl(t, urls, index), alt)
  }

  function Parts(t: BlogTemplate, units: seq<Unit>, urls: seq<string>): seq<string> {
    seq(|units|, j requires 0 <= j < |units| => UnitCode(t, units[j], CountImages(units[..j]), urls))
  }

  function BlogCode(t: BlogTemplate, d: BlogData, f: FeaturedImage, urls: seq<string>): string {
    TitleCode(t, d.title) + FeaturedCode(t, f) + Concat(Parts(t, d.content, urls)) + t.footer
  }

  /** `generateBlogCode`. */
  function GeneratedBlogCode(d: BlogData, f: FeaturedImage, urls: seq<string>): string {
    BlogCode(BlogPage, d, f, urls)
  }

  // ---------------------------------------------------------------------
  // What the generator guarantees
  // ---------------------------------------------------------------------

  /** What a unit's markup holds, the page holds. */
  lemma UnitOnPage(t: BlogTemplate, d: BlogData, f: FeaturedImage, urls: seq<string>, j: nat, x: string)
    requires j < |d.content| && Contains(UnitCode(t, d.content[j], CountImages(d.content[..j]), urls), x)
    ensures Contains(BlogCode(t, d, f, urls), x)
  {
    var parts := Parts(t, d.content, urls);
    ConcatHas(parts, j, x);
    ContainsWithin(TitleCode(t, d.title) + FeaturedCode(t, f), Concat(parts), t.footer, x);
  }

  /** A title is written escaped: it keeps no raw `<`, `>`, `"` or `'`, and
      decoding the references gives the title back. */
  lemma TitleShown(t: BlogTemplate, d: BlogData, f: FeaturedImage, urls: seq<string>)
    requires d.title != []
    ensures Contains(BlogCode(t, d, f, urls), t.titleOpen + EscapeHtml(d.title) + t.titleClose)
    ensures Safe(EscapeHtml(d.title)) && Sound(Refs) && Unescape(EscapeHtml(d.title), Refs) == d.title
  {
    TitleOnPage(t, d, f, urls);
    EscapeHtmlSafe(d.title);
    EscapeHtmlRoundTrip(d.title);
  }

  lemma TitleOnPage(t: BlogTemplate, d: BlogData, f: FeaturedImage, urls: seq<string>)
    ensures Contains(BlogCode(t, d, f, urls), TitleCode(t, d.title))
  {
    FirstOfFour(TitleCode(t, d.title), FeaturedCode(t, f), Concat(Parts(t, d.content, urls)), t.footer);
  }

  lemma FirstOfFour(a: string, b: string, c: string, e: string)
    ensures Contains(a + b + c + e, a)
  {
    assert InfixAt(a + b + c + e, a, 0);
  }

  /** The featured image's attribute values keep no raw `<`, `>` or `"`,
      so none of them can end its attribute early. */
  lemma FeaturedSafe(f: FeaturedImage)
    ensures '"' !in EscapeAttr(f.url) && '"' !in EscapeAttr(f.alt) && '"' !in EscapeAttr(f.title)
    ensures '<' !in EscapeAttr(f.url) && '<' !in EscapeAttr(f.alt) && '<' !in EscapeAttr(f.title)
  {
    EscapeAttrSafe(f.url);
    EscapeAttrSafe(f.alt);
    EscapeAttrSafe(f.title);
  }

  /** An image unit preceded by `k` image units is written with the `k`-th
      URL, or `#` when there are not that many non-empty ones. */
  lemma ImageShown(t: BlogTemplate, d: BlogData, f: FeaturedImage, urls: seq<string>, j: nat)
    requires j < |d.content| && d.content[j].Image?
    ensures var k := CountImages(d.content[..j]);
            Contains(BlogCode(t, d, f, urls), ImageTag(t, ImageUrl(t, urls, k), d.content[j].alt))
            && (k < |urls| && urls[k] != [] ==> ImageUrl(t, urls, k) == urls[k])
            && (k >= |urls| ==> ImageUrl(t, urls, k) == t.noImage)
  {
    var x := ImageTag(t, ImageUrl(t, urls, CountImages(d.content[..j])), d.content[j].alt);
    ContainsInfix([], x, []);
    assert [] + x + [] == x;
    UnitOnPage(t, d, f, urls, j, x);
  }

  /** On the classifier's output the image whose placeholder is `[Image n]`
      is written with the `n`-th URL (counting from 1), or `#`. */
  lemma NumberedImageShown(es: seq<Element>, t: BlogTemplate, f: FeaturedImage, urls: seq<string>, j: nat)
    requires var d := BlogContent(es); j < |d.content| && d.content[j].Image?
    ensures var d := BlogContent(es);
            exists n: nat :: 1 <= n && d.content[j].placeholder == ImagePlaceholder(n)
              && Contains(BlogCode(t, d, f, urls), ImageTag(t, ImageUrl(t, urls, n - 1), d.content[j].alt))
  {
    var d := BlogContent(es);
    BlogContentOk(es, false);
    assert UnitOk(d.content, j);
    var n := CountImages(d.content[..j]) + 1;
    ImageShown(t, d, f, urls, j);
    assert d.content[j].placeholder == ImagePlaceholder(n);
  }

  /** A paragraph is written exactly when its trimmed markup keeps text once
      its tags are stripped. */
  lemma ParagraphShown(t: BlogTemplate, c: string, index: nat, urls: seq<string>)
    ensures UnitCode(t, Paragraph(c), index, urls) == [] <==> !HasText(Trim(c))
    ensures HasText(Trim(c)) ==> Contains(UnitCode(t, Paragraph(c), index, urls), Trim(c))
  {
    if HasText(Trim(c)) {
      ContainsInfix(t.pOpen, Trim(c), t.pClose);
    }
  }

  /** The classifier's paragraphs are all written, unchanged. */
  lemma WalkedParagraphShown(es: seq<Element>, t: BlogTemplate, f: FeaturedImage, urls: seq<string>, j: nat)
    requires var d := BlogContent(es); j < |d.content| && d.content[j].Paragraph?
    ensures var d := BlogContent(es); Contains(BlogCode(t, d, f, urls), d.content[j].content)
  {
    var d := BlogContent(es);
    BlogContentOk(es, false);
    assert UnitOk(d.content, j);
    var c := d.content[j].content;
    ParagraphShown(t, c, CountImages(d.content[..j]), urls);
    UnitOnPage(t, d, f, urls, j, Trim(c));
  }

  lemma ItemInList(t: BlogTemplate, ordered: bool, items: seq<string>, i: nat)
    requires i < |items| && Trim(items[i]) != []
    ensures Contains(ListCode(t, ordered, items), t.liOpen + items[i] + t.liClose)
  {
    var lis := ListItems(t, items);
    var x := lis[i];
    ContainsInfix([], x, []);
    assert [] + x + [] == x;
    ConcatHas(lis, i, x);
    var tag := ListTag(t, ordered);
    ContainsWithin(t.tagOpen + tag + t.tagOpenEnd, Concat(lis), t.tagCloseOpen + tag + t.tagCloseEnd, x);
  }

  /** A list item is written when it is not blank. */
  lemma ListItemShown(t: BlogTemplate, ordered: bool, items: seq<string>, index: nat, urls: seq<string>, i: nat)
    requires i < |items| && Trim(items[i]) != []
    ensures Contains(UnitCode(t, List(ordered, items), index, urls), t.liOpen + items[i] + t.liClose)
  {
    ItemInList(t, ordered, items, i);
  }

  lemma BlankItemDropped(t: BlogTemplate, li: string)
    requires Trim(li) == []
    ensures ListItem(t, li) == []
  {
  }

  /** A heading without a level is written as `h2`; a level-1 heading is
      centred and keeps its extra class. */
  lemma HeadingShape(t: BlogTemplate, level: nat, className: string, content: string)
    ensures level == 0 ==>
              HeadingCode(t, level, className, content)
              == t.hOpen + "2" + t.classOpen + className + t.classEnd + content + t.hCloseOpen + "2" + t.blockEnd
    ensures level == 1 && className != [] ==>
              HeadingCode(t, level, className, content)
              == t.h1Open + t.space + className + t.classEnd + content + t.h1Close
  {
  }

  // ---------------------------------------------------------------------
  // The generator
  // ---------------------------------------------------------------------

  method FeaturedMarkup(t: BlogTemplate, f: FeaturedImage) returns (imgTag: string)
    ensures imgTag == FeaturedCode(t, f)
  {
    if f.url == [] {
      return "";
    }
    var alt := "";
    if f.alt != [] {
      alt := t.altOpen + EscapeAttr(f.alt) + t.attrEnd;
    }
    var title := "";
    if f.title != [] {
      title := t.titleAttrOpen + EscapeAttr(f.title) + t.attrEnd;
    }
    imgTag := t.srcOpen + EscapeAttr(f.url) + t.attrEnd + alt + title + t.imgEnd;
  }

  /** The `forEach` over a list's items. */
  method ListItemsLoop(t: BlogTemplate, items: seq<string>) returns (code: string)
    ensures code == Concat(ListItems(t, items))
  {
    ghost var lis := ListItems(t, items);
    code := "";
    var i := 0;
    while i < |items|
      invariant i <= |items| && code == Concat(lis[..i])
    {
      ConcatSnoc(lis, i);
      var li := items[i];
      if Trim(li) != [] {
        code := code + (t.liOpen + li + t.liClose);
      }
      i := i + 1;
    }
    assert lis[..i] == lis;
  }

  /** One case of the `switch`. */
  method UnitMarkup(t: BlogTemplate, item: Unit, imageIndex: nat, urls: seq<string>) returns (code: string)
    ensures code == UnitCode(t, item, imageIndex, urls)
  {
    match item
    case Heading(level, className, content) =>
      var l := if level == 0 then 2 else level;
      if l == 1 {
        var cls := if className != [] then t.space + className else [];
        code := t.h1Open + cls + t.classEnd + content + t.h1Close;
      } else {
        code := t.hOpen + NatToString(l) + t.classOpen + className + t.classEnd + content
                + t.hCloseOpen + NatToString(l) + t.blockEnd;
      }
    case Paragraph(content) =>
      var c := Trim(content);
      code := "";
      if c != [] && Trim(StripTags(c)) != [] {
        code := t.pOpen + c + t.pClose;
      }
    case List(ordered, items) =>
      var tag := if ordered then t.ol else t.ul;
      var lis := ListItemsLoop(t, items);
      code := (t.tagOpen + tag + t.tagOpenEnd) + lis + (t.tagCloseOpen + tag + t.tagCloseEnd);
    case Image(alt, _) =>
      var imageUrl := if imageIndex < |urls| && urls[imageIndex] != [] then urls[imageIndex] else t.noImage;
      code := t.srcOpen + EscapeAttr(imageUrl) + t.attrEnd + t.altOpen + EscapeAttr(alt) + t.attrEnd + t.imgEnd;
  }

  lemma CountImagesSnoc(units: seq<Unit>, i: nat)
    requires i < |units|
    ensures CountImages(units[..i + 1]) == CountImages(units[..i]) + (if units[i].Image? then 1 else 0)
  {
    assert units[..i + 1][..i] == units[..i];
  }

  /** The loop over `blogData.content`, counting the images it has passed. */
  method ContentLoop(t: BlogTemplate, units: seq<Unit>, urls: seq<string>) returns (code: string)
    ensures code == Concat(Parts(t, units, urls))
  {
    ghost var parts := Parts(t, units, urls);
    var imageIndex := 0;
    code := "";
    var i := 0;
    while i < |units|
      invariant i <= |units| && code == Concat(parts[..i])
      invariant imageIndex == CountImages(units[..i])
    {
      ConcatSnoc(parts, i);
      CountImagesSnoc(units, i);
      var unitCode := UnitMarkup(t, units[i], imageIndex, urls);
      code := code + unitCode;
      if units[i].Image? {
        imageIndex := imageIndex + 1;
      }
      i := i + 1;
    }
    assert parts[..i] == parts;
  }

  /** The generator for the text pieces `t`. */
  method BlogLoop(t: BlogTemplate, d: BlogData, f: FeaturedImage, urls: seq<string>) returns (html: string)
    ensures html == BlogCode(t, d, f, urls)
  {
    var title := "";
    if d.title != [] {
      title := t.titleOpen + EscapeHtml(d.title) + t.titleClose;
    }
    var imgTag := FeaturedMarkup(t, f);
    var content := ContentLoop(t, d.content, urls);
    html := title + imgTag + content + t.footer;
  }

  /** `generateBlogCode`. */
  method GenerateBlogCode(d: BlogData, f: FeaturedImage, urls: seq<string>) returns (html: string)
    ensures html == GeneratedBlogCode(d, f, urls)
  {
    html := BlogLoop(BlogPage, d, f, urls);
  }
}
