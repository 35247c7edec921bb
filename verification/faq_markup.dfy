/** The two FAQ generators: `generateFAQCode` for courses (lines 655-686) and
    `generateBlogFAQCode` for blogs (lines 1049-1093). Both split the pairs
    into two columns, the first holding the larger half. The blog generator
    cleans each pair again, escapes the question and leaves out a pair
    whose question or answer comes out empty.

    The fixed text of each generator is a `FaqTemplate`; `CoursePage` and
    `BlogPage` hold the text the generators write. */
module FaqMarkup {
  import opened Strings
  import opened Patterns
  import opened Faq
  import opened Course
  import opened Escape

  datatype FaqTemplate = FaqTemplate(
    head: string,           // the heading and the opening of the row
    colOpen: string,
    colClose: string,
    itemOpen: string,
    questionOpen: string,
    questionClose: string,
    answerOpen: string,
    answerClose: string,
    itemClose: string,
    tail: string,           // the closing of the row
    placeholder: string)    // the text for no pairs at all

  const CoursePage: FaqTemplate := FaqTemplate(
    "<h2 class=\"h3 mb-4\">Frequently Asked Questions</h2>\n<div class=\"row\">\n",
    "  <div class=\"col-md-6\">\n",
    "  </div>\n",
    "    <div class=\"mb-3\">\n",
    "      <h5 class=\"h6 fw-bold\">",
    "</h5>\n",
    "      <p>",
    "</p>\n",
    "    </div>\n",
    "</div>",
    "<!-- No FAQs found in the FAQ section -->")

  const BlogPage: FaqTemplate := FaqTemplate(
    "<div class=\"faq-section\">\n<h2 class=\"h3 mb-4\">Frequently Asked Questions</h2>\n<div class=\"row\">\n",
    "  <div class=\"col-md-6\">\n",
    "  </div>\n",
    "    <div class=\"mb-3\">\n",
    "      <h5 class=\"h6 fw-bold\">",
    "</h5>\n",
    "      <div class=\"faq-answer\">",
    "</div>\n",
    "    </div>\n",
    "</div>\n</div>",
    "<!-- No FAQs found in the FAQ section -->")

  /** `replace(/^A:\s*`/i, '')`. */
  function DropAPrefix(s: string): string {
    if |s| >= 2 && (s[0] == 'A' || s[0] == 'a') && s[1] == ':' then s[SkipSpaces(s, 2)..] else s
  }

  /** `Math.ceil(n / 2)`. */
  function MidPoint(n: nat): nat {
    (n + 1) / 2
  }

  /** The question and answer a generator prints for a pair, if any: the
      course generator prints the pair as it is; the blog generator cleans
      the question with `cleanFAQText` and escapes it, drops a leading
      `A:` from the answer and trims it, and skips the pair when either
      comes out empty. */
  function Printed(f: Faq, blog: bool): Option<Faq> {
    if !blog then Some(f)
    else
      var question := CleanFaqText(f.question);
      var answer := Trim(DropAPrefix(f.answer));
      if question != [] && answer != [] then Some(Faq(EscapeHtml(question), answer)) else None
  }

  function FaqItem(t: FaqTemplate, question: string, answer: string): string {
    t.itemOpen + t.questionOpen + question + t.questionClose + t.answerOpen + answer + t.answerClose + t.itemClose
  }

  /** What a pair contributes to its column. */
  function EntryCode(t: FaqTemplate, f: Faq, blog: bool): string {
    match Printed(f, blog)
    case None => []
    case Some(p) => FaqItem(t, p.question, p.answer)
  }

  function EntryCodes(t: FaqTemplate, col: seq<Faq>, blog: bool): seq<string> {
    seq(|col|, k requires 0 <= k < |col| => EntryCode(t, col[k], blog))
  }

  function Column(t: FaqTemplate, col: seq<Faq>, blog: bool): string {
    t.colOpen + Concat(EntryCodes(t, col, blog)) + t.colClose
  }

  function FaqCode(t: FaqTemplate, faqs: seq<Faq>, blog: bool): string {
    if faqs == [] then t.placeholder
    else
      var mid := MidPoint(|faqs|);
      t.head + Column(t, faqs[..mid], blog) + Column(t, faqs[mid..], blog) + t.tail
  }

  /** `generateFAQCode`. */
  function CourseFaqCode(d: CourseData): string {
    FaqCode(CoursePage, d.faqData, false)
  }

  /** `generateBlogFAQCode`. */
  function BlogFaqCode(faqs: seq<Faq>): string {
    FaqCode(BlogPage, faqs, true)
  }

  /** The first column holds the first ceil(n/2) pairs and the second the
      rest, in order: the second is never longer than the first and at most
      one shorter. */
  lemma ColumnsSplit(faqs: seq<Faq>)
    ensures var mid := MidPoint(|faqs|);
            mid <= |faqs| && faqs[..mid] + faqs[mid..] == faqs
            && |faqs[mid..]| <= |faqs[..mid]| <= |faqs[mid..]| + 1
            && 2 * mid - 1 <= |faqs| <= 2 * mid
  {
  }

  /** The markup of some pairs is longer than the placeholder, and the
      placeholder is not empty. */
  predicate Distinguished(t: FaqTemplate) {
    t.placeholder != [] && |t.head| + |t.tail| > |t.placeholder|
  }

  lemma PagesDistinguished()
    ensures Distinguished(CoursePage) && Distinguished(BlogPage)
  {
  }

  /** The placeholder is the whole text exactly when there are no pairs,
      and the text is never empty. */
  lemma FaqPlaceholder(t: FaqTemplate, faqs: seq<Faq>, blog: bool)
    requires Distinguished(t)
    ensures FaqCode(t, faqs, blog) == t.placeholder <==> faqs == []
    ensures FaqCode(t, faqs, blog) != []
  {
    if faqs != [] {
      var mid := MidPoint(|faqs|);
      assert |FaqCode(t, faqs, blog)| >= |t.head| + |t.tail|;
    }
  }

  /** Both generators write the `No FAQs` comment exactly when there are no
      pairs, and never an empty text. */
  lemma GeneratorsPlaceholder(d: CourseData, faqs: seq<Faq>)
    ensures CourseFaqCode(d) == CoursePage.placeholder <==> d.faqData == []
    ensures BlogFaqCode(faqs) == BlogPage.placeholder <==> faqs == []
    ensures CourseFaqCode(d) != [] && BlogFaqCode(faqs) != []
  {
    PagesDistinguished();
    FaqPlaceholder(CoursePage, d.faqData, false);
    FaqPlaceholder(BlogPage, faqs, true);
  }

  lemma EntryInColumn(t: FaqTemplate, col: seq<Faq>, blog: bool, k: nat)
    requires k < |col|
    ensures Contains(Column(t, col, blog), EntryCode(t, col[k], blog))
  {
    var codes := EntryCodes(t, col, blog);
    var x := codes[k];
    ContainsInfix([], x, []);
    assert [] + x + [] == x;
    ConcatHas(codes, k, x);
    ContainsWithin(t.colOpen, Concat(codes), t.colClose, x);
  }

  /** What either column holds, the whole text holds. */
  lemma ColumnInCode(t: FaqTemplate, faqs: seq<Faq>, blog: bool, x: string)
    requires faqs != []
    requires var mid := MidPoint(|faqs|);
             Contains(Column(t, faqs[..mid], blog), x) || Contains(Column(t, faqs[mid..], blog), x)
    ensures Contains(FaqCode(t, faqs, blog), x)
  {
    var mid := MidPoint(|faqs|);
    var c1, c2 := Column(t, faqs[..mid], blog), Column(t, faqs[mid..], blog);
    if Contains(c1, x) {
      ContainsWithin(t.head, c1, c2 + t.tail, x);
      assert t.head + c1 + (c2 + t.tail) == FaqCode(t, faqs, blog);
    } else {
      ContainsWithin(t.head + c1, c2, t.tail, x);
    }
  }

  /** The `k`-th pair is written in the first column when `k` is below the
      midpoint and in the second otherwise. */
  lemma EntryPlaced(t: FaqTemplate, faqs: seq<Faq>, blog: bool, k: nat)
    requires k < |faqs|
    ensures var mid := MidPoint(|faqs|);
            (k < mid ==> Contains(Column(t, faqs[..mid], blog), EntryCode(t, faqs[k], blog)))
            && (k >= mid ==> Contains(Column(t, faqs[mid..], blog), EntryCode(t, faqs[k], blog)))
            && Contains(FaqCode(t, faqs, blog), EntryCode(t, faqs[k], blog))
  {
    var mid := MidPoint(|faqs|);
    if k < mid {
      assert faqs[..mid][k] == faqs[k];
      EntryInColumn(t, faqs[..mid], blog, k);
    } else {
      assert faqs[mid..][k - mid] == faqs[k];
      EntryInColumn(t, faqs[mid..], blog, k - mid);
    }
    ColumnInCode(t, faqs, blog, EntryCode(t, faqs[k], blog));
  }

  /** Every pair of a course shows up with its question and its answer. */
  lemma CoursePairShown(t: FaqTemplate, faqs: seq<Faq>, k: nat)
    requires k < |faqs|
    ensures Contains(FaqCode(t, faqs, false), FaqItem(t, faqs[k].question, faqs[k].answer))
  {
    EntryPlaced(t, faqs, false, k);
  }

  /** A blog pair is written exactly when its cleaned question and its
      answer are both non-empty; the written question has no raw `<`, `>`,
      `"` or `'`, decodes back to the cleaned question, and the answer is
      trimmed. */
  lemma BlogPairPrinted(f: Faq)
    ensures Printed(f, true).Some? <==> CleanFaqText(f.question) != [] && Trim(DropAPrefix(f.answer)) != []
    ensures Printed(f, true).Some? ==>
              var p := Printed(f, true).value;
              Safe(p.question) && Sound(Refs) && Unescape(p.question, Refs) == CleanFaqText(f.question)
              && Trimmed(p.answer)
  {
    var question := CleanFaqText(f.question);
    EscapeHtmlSafe(question);
    EscapeHtmlRoundTrip(question);
  }

  /** A skipped blog pair leaves nothing in its column. */
  lemma BlogPairSkipped(t: FaqTemplate, f: Faq)
    requires CleanFaqText(f.question) == [] || Trim(DropAPrefix(f.answer)) == []
    ensures EntryCode(t, f, true) == []
  {
  }

  /** One column: the `forEach` over its pairs. */
  method ColumnLoop(t: FaqTemplate, col: seq<Faq>, blog: bool) returns (code: string)
    ensures code == Column(t, col, blog)
  {
    ghost var codes := EntryCodes(t, col, blog);
    var items := "";
    var k := 0;
    while k < |col|
      invariant k <= |col| && items == Concat(codes[..k])
    {
      ConcatSnoc(codes, k);
      var faq := col[k];
      if !blog {
        items := items + (t.itemOpen + t.questionOpen + faq.question + t.questionClose
                          + t.answerOpen + faq.answer + t.answerClose + t.itemClose);
      } else {
        var question := CleanFaqText(faq.question);
        var answer := Trim(DropAPrefix(faq.answer));
        if question != [] && answer != [] {
          items := items + (t.itemOpen + t.questionOpen + EscapeHtml(question) + t.questionClose
                            + t.answerOpen + answer + t.answerClose + t.itemClose);
        }
      }
      k := k + 1;
    }
    assert codes[..k] == codes;
    code := t.colOpen + items + t.colClose;
  }

  /** The generator for the text pieces `t`. */
  method FaqLoop(t: FaqTemplate, faqs: seq<Faq>, blog: bool) returns (html: string)
    ensures html == FaqCode(t, faqs, blog)
  {
    if |faqs| == 0 {
      return t.placeholder;
    }
    var midPoint := (|faqs| + 1) / 2;
    var column1 := ColumnLoop(t, faqs[..midPoint], blog);
    var column2 := ColumnLoop(t, faqs[midPoint..], blog);
    html := t.head + column1 + column2 + t.tail;
  }

  /** `generateFAQCode`. */
  method GenerateFAQCode(d: CourseData) returns (html: string)
    ensures html == CourseFaqCode(d)
  {
    html := FaqLoop(CoursePage, d.faqData, false);
  }

  /** `generateBlogFAQCode`. */
  method GenerateBlogFAQCode(faqs: seq<Faq>) returns (html: string)
    ensures html == BlogFaqCode(faqs)
  {
    html := FaqLoop(BlogPage, faqs, true);
  }
}
