/** The course generators `generateCourseObjectivesCode` (lines 591-600) and
    `generateSyllabusCode` (lines 602-653).

    The fixed text of the markup is kept in template records, so that the
    definitions and the proofs speak of its pieces by name; `ObjectivesPage`
    and `SyllabusPage` hold the text the generators write. */
module CourseMarkup {
  import opened Strings
  import opened Syllabus
  import opened Course

  // ---------------------------------------------------------------------
  // Course objectives (lines 591-600)
  // ---------------------------------------------------------------------

  datatype ObjectivesTemplate = ObjectivesTemplate(
    head: string,          // the heading and the start of the intro paragraph
    introEnd: string,      // from the intro to the list
    tail: string,          // the end of the list
    itemOpen: string,
    itemClose: string,
    separator: string,     // between two items
    noObjectives: string,  // the item shown for an empty list
    defaultIntro: string)  // the intro shown when none was found

  const ObjectivesPage: ObjectivesTemplate := ObjectivesTemplate(
    "<h2 class=\"h3\">Course Objectives</h2><p class=\"m-0\"><strong>",
    "</strong></p><ul>",
    "</ul>",
    "<li>",
    "</li>",
    "\n",
    "<li>No course objectives found in the document.</li>",
    "After completing this course, the learner will be able to:")

  function ObjectiveItem(t: ObjectivesTemplate, item: string): string {
    t.itemOpen + item + t.itemClose
  }

  function ObjectiveItems(t: ObjectivesTemplate, list: seq<string>): seq<string> {
    seq(|list|, k requires 0 <= k < |list| => ObjectiveItem(t, list[k]))
  }

  /** `data.courseObjectivesIntro || <default>`. */
  function Intro(t: ObjectivesTemplate, d: CourseData): string {
    if d.courseObjectivesIntro == [] then t.defaultIntro else d.courseObjectivesIntro
  }

  function ObjectivesCode(t: ObjectivesTemplate, d: CourseData): string {
    var items := if d.courseObjectivesList == [] then t.noObjectives
                 else Join(ObjectiveItems(t, d.courseObjectivesList), t.separator);
    t.head + Intro(t, d) + t.introEnd + items + t.tail
  }

  /** `generateCourseObjectivesCode`. */
  function CourseObjectivesCode(d: CourseData): string {
    ObjectivesCode(ObjectivesPage, d)
  }

  /** Every objective shows up as a list item. */
  lemma ObjectiveShown(t: ObjectivesTemplate, d: CourseData, k: nat)
    requires k < |d.courseObjectivesList|
    ensures Contains(ObjectivesCode(t, d), ObjectiveItem(t, d.courseObjectivesList[k]))
  {
    var items := ObjectiveItems(t, d.courseObjectivesList);
    var joined := Join(items, t.separator);
    JoinHas(items, t.separator, k);
    ContainsWithin(t.head + Intro(t, d) + t.introEnd, joined, t.tail, items[k]);
  }

  /** An empty list is shown as the placeholder item. */
  lemma NoObjectivesShown(t: ObjectivesTemplate, d: CourseData)
    requires d.courseObjectivesList == []
    ensures Contains(ObjectivesCode(t, d), t.noObjectives)
  {
    ContainsInfix(t.head + Intro(t, d) + t.introEnd, t.noObjectives, t.tail);
  }

  /** The intro found in the document is shown; without one, the default. */
  lemma IntroShown(t: ObjectivesTemplate, d: CourseData)
    ensures d.courseObjectivesIntro != [] ==> Contains(ObjectivesCode(t, d), d.courseObjectivesIntro)
    ensures d.courseObjectivesIntro == [] ==> Contains(ObjectivesCode(t, d), t.defaultIntro)
  {
    var items := if d.courseObjectivesList == [] then t.noObjectives
                 else Join(ObjectiveItems(t, d.courseObjectivesList), t.separator);
    ContainsInfix(t.head, Intro(t, d), t.introEnd + items + t.tail);
    assert t.head + Intro(t, d) + (t.introEnd + items + t.tail) == ObjectivesCode(t, d);
  }

  // ---------------------------------------------------------------------
  // Syllabus (lines 602-653)
  // ---------------------------------------------------------------------

  datatype SyllabusTemplate = SyllabusTemplate(
    cardHead: string,      // a card up to its heading id
    toButton: string,      // from the heading id to the button's target
    toControls: string,    // from the target to `aria-controls`
    toTitle: string,       // from `aria-controls` to the module title
    toCollapse: string,    // from the title to the collapse `div`'s id
    toLabel: string,       // from that id to `aria-labelledby`
    toBody: string,        // from `aria-labelledby` into the card body
    descOpen: string,
    descClose: string,
    lessonsOpen: string,
    lessonsClose: string,
    lessonOpen: string,
    lessonTitleEnd: string,
    itemsOpen: string,
    itemOpen: string,
    itemClose: string,
    itemsClose: string,
    lessonClose: string,
    cardClose: string,
    heading: string,       // the stem of the heading ids
    collapse: string,      // the stem of the collapse ids
    open: string,          // the accordion's opening tag
    close: string,         // its closing tag
    empty: string)         // the text for a syllabus without modules

  const SyllabusPage: SyllabusTemplate := SyllabusTemplate(
    "<div class=\"card mb-2\">\n  <div class=\"card-header\" id=\"",
    "\">\n    <h5 class=\"mb-0\">\n      <button class=\"btn btn-link w-100 text-start text-decoration-none text-dark fw-bold collapsed\" data-bs-toggle=\"collapse\" data-bs-target=\"#",
    "\" aria-expanded=\"false\" aria-controls=\"",
    "\">\n        ",
    "\n      </button>\n    </h5>\n  </div>\n\n  <div id=\"",
    "\" class=\"collapse\" aria-labelledby=\"",
    "\" data-parent=\"#accordionSyllabus\">\n    <div class=\"card-body\">\n",
    "      <p>",
    "</p>\n",
    "      <ul>\n",
    "      </ul>\n",
    "        <li>",
    "\n",
    "          <ul>\n",
    "            <li>",
    "</li>\n",
    "          </ul>\n",
    "        </li>\n",
    "    </div>\n  </div>\n</div>\n",
    "heading",
    "collapse",
    "<div id=\"accordionSyllabus\" class=\"accordion\">\n",
    "</div>",
    "<p>No syllabus content found.</p>")

  /** `heading${index + 1}`. */
  function HeadingId(t: SyllabusTemplate, k: nat): string {
    t.heading + NatToString(k + 1)
  }

  /** `collapse${index + 1}`. */
  function CollapseId(t: SyllabusTemplate, k: nat): string {
    t.collapse + NatToString(k + 1)
  }

  /** The header of the `k`-th card up to its module title. */
  function TitleBefore(t: SyllabusTemplate, k: nat): string {
    t.cardHead + HeadingId(t, k) + t.toButton + CollapseId(t, k) + t.toControls + CollapseId(t, k) + t.toTitle
  }

  /** The header of the `k`-th card after its module title, into the body. */
  function TitleAfter(t: SyllabusTemplate, k: nat): string {
    t.toCollapse + CollapseId(t, k) + t.toLabel + HeadingId(t, k) + t.toBody
  }

  function ItemLine(t: SyllabusTemplate, item: string): string {
    t.itemOpen + item + t.itemClose
  }

  function ItemLines(t: SyllabusTemplate, items: seq<string>): seq<string> {
    seq(|items|, i requires 0 <= i < |items| => ItemLine(t, items[i]))
  }

  /** A lesson's `<li>`, with the nested list only when it has items. */
  function LessonCode(t: SyllabusTemplate, l: Lesson): string {
    t.lessonOpen + l.title + t.lessonTitleEnd
    + (if l.items != [] then t.itemsOpen + Concat(ItemLines(t, l.items)) + t.itemsClose else [])
    + t.lessonClose
  }

  function LessonCodes(t: SyllabusTemplate, lessons: seq<Lesson>): seq<string> {
    seq(|lessons|, j requires 0 <= j < |lessons| => LessonCode(t, lessons[j]))
  }

  function Description(t: SyllabusTemplate, m: Module): string {
    if m.description != [] then t.descOpen + m.description + t.descClose else []
  }

  function LessonsBlock(t: SyllabusTemplate, lessons: seq<Lesson>): string {
    if lessons != [] then t.lessonsOpen + Concat(LessonCodes(t, lessons)) + t.lessonsClose else []
  }

  /** The header of the `k`-th card, with its title, into the card body. */
  function CardHeader(t: SyllabusTemplate, title: string, k: nat): string {
    t.cardHead + HeadingId(t, k) + t.toButton + CollapseId(t, k) + t.toControls + CollapseId(t, k) + t.toTitle
    + title + t.toCollapse + CollapseId(t, k) + t.toLabel + HeadingId(t, k) + t.toBody
  }

  lemma CardHeaderTitle(t: SyllabusTemplate, title: string, k: nat)
    ensures CardHeader(t, title, k) == TitleBefore(t, k) + title + TitleAfter(t, k)
  {
  }

  /** The card of the `k`-th module. */
  function Card(t: SyllabusTemplate, m: Module, k: nat): string {
    CardHeader(t, m.title, k) + Description(t, m) + LessonsBlock(t, m.lessons) + t.cardClose
  }

  function Cards(t: SyllabusTemplate, modules: seq<Module>): seq<string> {
    seq(|modules|, k requires 0 <= k < |modules| => Card(t, modules[k], k))
  }

  function SyllabusCode(t: SyllabusTemplate, modules: seq<Module>): string {
    if modules == [] then t.empty else t.open + Concat(Cards(t, modules)) + t.close
  }

  /** `generateSyllabusCode`. */
  function CourseSyllabusCode(d: CourseData): string {
    SyllabusCode(SyllabusPage, d.syllabusModules)
  }

  /** The accordion is longer than the placeholder, so the two never meet. */
  predicate Distinguished(t: SyllabusTemplate) {
    |t.open| + |t.close| > |t.empty|
  }

  lemma SyllabusPageDistinguished()
    ensures Distinguished(SyllabusPage)
  {
  }

  /** The placeholder is the whole text exactly when there are no modules. */
  lemma SyllabusPlaceholder(t: SyllabusTemplate, modules: seq<Module>)
    requires Distinguished(t)
    ensures SyllabusCode(t, modules) == t.empty <==> modules == []
  {
    if modules != [] {
      assert |SyllabusCode(t, modules)| >= |t.open| + |t.close|;
    }
  }

  /** `generateSyllabusCode` writes `<p>No syllabus content found.</p>`
      exactly when there are no modules. */
  lemma CourseSyllabusPlaceholder(d: CourseData)
    ensures CourseSyllabusCode(d) == SyllabusPage.empty <==> d.syllabusModules == []
  {
    SyllabusPageDistinguished();
    SyllabusPlaceholder(SyllabusPage, d.syllabusModules);
  }

  lemma DropStem(stem: string, rest: string)
    ensures (stem + rest)[|stem|..] == rest
  {
  }

  /** Two cards never share a collapse id or a heading id. */
  lemma IdsDistinct(t: SyllabusTemplate, j: nat, k: nat)
    requires j != k
    ensures CollapseId(t, j) != CollapseId(t, k) && HeadingId(t, j) != HeadingId(t, k)
  {
    ParseNatToString(j + 1);
    ParseNatToString(k + 1);
    DropStem(t.collapse, NatToString(j + 1));
    DropStem(t.collapse, NatToString(k + 1));
    DropStem(t.heading, NatToString(j + 1));
    DropStem(t.heading, NatToString(k + 1));
  }

  /** Every module has its card in the accordion. */
  lemma CardShown(t: SyllabusTemplate, modules: seq<Module>, k: nat)
    requires k < |modules|
    ensures Contains(SyllabusCode(t, modules), Card(t, modules[k], k))
  {
    var cards := Cards(t, modules);
    ContainsInfix([], cards[k], []);
    assert [] + cards[k] + [] == cards[k];
    ConcatHas(cards, k, cards[k]);
    ContainsWithin(t.open, Concat(cards), t.close, cards[k]);
  }

  /** Every module title is shown. */
  lemma ModuleTitleShown(t: SyllabusTemplate, modules: seq<Module>, k: nat)
    requires k < |modules|
    ensures Contains(SyllabusCode(t, modules), modules[k].title)
  {
    var m := modules[k];
    var rest := Description(t, m) + LessonsBlock(t, m.lessons) + t.cardClose;
    ContainsInfix(TitleBefore(t, k), m.title, TitleAfter(t, k) + rest);
    CardHeaderTitle(t, m.title, k);
    assert TitleBefore(t, k) + m.title + (TitleAfter(t, k) + rest) == Card(t, m, k);
    CardShown(t, modules, k);
    ContainsTrans(SyllabusCode(t, modules), Card(t, m, k), m.title);
  }

  /** A module description is shown when there is one. */
  lemma DescriptionShown(t: SyllabusTemplate, modules: seq<Module>, k: nat)
    requires k < |modules| && modules[k].description != []
    ensures Contains(SyllabusCode(t, modules), modules[k].description)
  {
    var m := modules[k];
    var d := Description(t, m);
    ContainsInfix(t.descOpen, m.description, t.descClose);
    var rest := LessonsBlock(t, m.lessons) + t.cardClose;
    ContainsWithin(CardHeader(t, m.title, k), d, rest, m.description);
    assert CardHeader(t, m.title, k) + d + rest == Card(t, m, k);
    CardShown(t, modules, k);
    ContainsTrans(SyllabusCode(t, modules), Card(t, m, k), m.description);
  }

  /** Every lesson of a module is shown within its card. */
  lemma LessonShown(t: SyllabusTemplate, modules: seq<Module>, k: nat, j: nat)
    requires k < |modules| && j < |modules[k].lessons|
    ensures Contains(SyllabusCode(t, modules), LessonCode(t, modules[k].lessons[j]))
  {
    var m := modules[k];
    var codes := LessonCodes(t, m.lessons);
    var l := codes[j];
    ContainsInfix([], l, []);
    assert [] + l + [] == l;
    ConcatHas(codes, j, l);
    ContainsWithin(t.lessonsOpen, Concat(codes), t.lessonsClose, l);
    var before := CardHeader(t, m.title, k) + Description(t, m);
    ContainsWithin(before, LessonsBlock(t, m.lessons), t.cardClose, l);
    assert before + LessonsBlock(t, m.lessons) + t.cardClose == Card(t, m, k);
    CardShown(t, modules, k);
    ContainsTrans(SyllabusCode(t, modules), Card(t, m, k), l);
  }

  /** Every item of a lesson is shown as an item line. */
  lemma ItemShown(t: SyllabusTemplate, modules: seq<Module>, k: nat, j: nat, i: nat)
    requires k < |modules| && j < |modules[k].lessons| && i < |modules[k].lessons[j].items|
    ensures Contains(SyllabusCode(t, modules), ItemLine(t, modules[k].lessons[j].items[i]))
  {
    var l := modules[k].lessons[j];
    var lines := ItemLines(t, l.items);
    var x := lines[i];
    ContainsInfix([], x, []);
    assert [] + x + [] == x;
    ConcatHas(lines, i, x);
    ContainsWithin(t.itemsOpen, Concat(lines), t.itemsClose, x);
    var block := t.itemsOpen + Concat(lines) + t.itemsClose;
    ContainsWithin(t.lessonOpen + l.title + t.lessonTitleEnd, block, t.lessonClose, x);
    assert t.lessonOpen + l.title + t.lessonTitleEnd + block + t.lessonClose == LessonCode(t, l);
    LessonShown(t, modules, k, j);
    ContainsTrans(SyllabusCode(t, modules), LessonCode(t, l), x);
  }

  /** The inner `forEach` over a lesson's items. */
  method ItemsLoop(t: SyllabusTemplate, items: seq<string>) returns (code: string)
    ensures code == Concat(ItemLines(t, items))
  {
    ghost var lines := ItemLines(t, items);
    code := "";
    var i := 0;
    while i < |items|
      invariant i <= |items| && code == Concat(lines[..i])
    {
      ConcatSnoc(lines, i);
      code := code + t.itemOpen + items[i] + t.itemClose;
      i := i + 1;
    }
    assert lines[..i] == lines;
  }

  /** One lesson's `<li>`. */
  method LessonMarkup(t: SyllabusTemplate, lesson: Lesson) returns (code: string)
    ensures code == LessonCode(t, lesson)
  {
    var nested := "";
    if |lesson.items| > 0 {
      var lines := ItemsLoop(t, lesson.items);
      nested := t.itemsOpen + lines + t.itemsClose;
    }
    code := t.lessonOpen + lesson.title + t.lessonTitleEnd + nested + t.lessonClose;
  }

  /** The `forEach` over a module's lessons. */
  method LessonsLoop(t: SyllabusTemplate, lessons: seq<Lesson>) returns (code: string)
    ensures code == Concat(LessonCodes(t, lessons))
  {
    ghost var codes := LessonCodes(t, lessons);
    code := "";
    var j := 0;
    while j < |lessons|
      invariant j <= |lessons| && code == Concat(codes[..j])
    {
      ConcatSnoc(codes, j);
      var lessonCode := LessonMarkup(t, lessons[j]);
      code := code + lessonCode;
      j := j + 1;
    }
    assert codes[..j] == codes;
  }

  /** The markup of one module, the body of the outer `forEach`. */
  method ModuleCode(t: SyllabusTemplate, m: Module, index: nat) returns (code: string)
    ensures code == Card(t, m, index)
  {
    var collapseId := t.collapse + NatToString(index + 1);
    var headingId := t.heading + NatToString(index + 1);
    var header := t.cardHead + headingId + t.toButton + collapseId + t.toControls + collapseId + t.toTitle
                  + m.title + t.toCollapse + collapseId + t.toLabel + headingId + t.toBody;
    var description := "";
    if m.description != [] {
      description := t.descOpen + m.description + t.descClose;
    }
    var lessons := "";
    if |m.lessons| > 0 {
      var lessonsCode := LessonsLoop(t, m.lessons);
      lessons := t.lessonsOpen + lessonsCode + t.lessonsClose;
    }
    code := header + description + lessons + t.cardClose;
  }

  /** The generator for the text pieces `t`. */
  method SyllabusLoop(t: SyllabusTemplate, modules: seq<Module>) returns (html: string)
    ensures html == SyllabusCode(t, modules)
  {
    if |modules| == 0 {
      return t.empty;
    }
    ghost var cards := Cards(t, modules);
    var syllabusHtml := "";
    var index := 0;
    while index < |modules|
      invariant index <= |modules| && syllabusHtml == Concat(cards[..index])
    {
      ConcatSnoc(cards, index);
      var card := ModuleCode(t, modules[index], index);
      syllabusHtml := syllabusHtml + card;
      index := index + 1;
    }
    assert cards[..index] == cards;
    html := t.open + syllabusHtml + t.close;
  }

  /** `generateSyllabusCode`. */
  method GenerateSyllabusCode(d: CourseData) returns (html: string)
    ensures html == CourseSyllabusCode(d)
  {
    html := SyllabusLoop(SyllabusPage, d.syllabusModules);
  }
}
