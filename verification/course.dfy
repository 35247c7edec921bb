/** The course pipeline: `extractOverview` (lines 119-145),
    `extractCourseObjectives` (lines 147-211) and `extractCourseContent`
    (lines 106-117), which fill the fields of the course record one
    extractor after the other. The record is a value passed in and out. */
module Course {
  import opened Strings
  import opened Blocks
  import opened Patterns
  import opened Syllabus
  import opened Faq

  datatype Section = Section(heading: string, content: string)

  /** The `courseData` record. */
  datatype CourseData = CourseData(
    overview: string, courseObjectives: string, syllabus: string, courseTitle: string,
    faqData: seq<Faq>, overviewSections: seq<Section>, courseObjectivesList: seq<string>,
    syllabusModules: seq<Module>, courseObjectivesIntro: string, fileProcessed: bool)

  /** The record as `resetCourseData` leaves it (lines 69-80). */
  const Reset := CourseData("", "", "", "", [], [], [], [], "", false)

  // ---------------------------------------------------------------------
  // extractOverview (lines 119-145)
  // ---------------------------------------------------------------------

  predicate OverviewMark(b: Block) {
    Contains(ToLower(Text(b)), "overview")
  }

  predicate OverviewObjectivesMark(b: Block) {
    var lt := ToLower(Text(b));
    Contains(lt, "course objectives") || Contains(lt, "1.2")
  }

  predicate OverviewSyllabusMark(b: Block) {
    var lt := ToLower(Text(b));
    Contains(lt, "syllabus") || Contains(lt, "course syllabus")
  }

  /** Where the overview ends, for an overview heading at `start`: the first
      objectives boundary behind it, else the first syllabus boundary behind
      it, else the end of the document. */
  function OverviewEnd(blocks: seq<Block>, start: nat): (e: nat)
    requires start < |blocks|
    ensures start < e <= |blocks|
    ensures forall k :: start < k < e ==> !OverviewObjectivesMark(blocks[k])
    ensures e < |blocks| ==> OverviewObjectivesMark(blocks[e]) || OverviewSyllabusMark(blocks[e])
    ensures e < |blocks| && !OverviewObjectivesMark(blocks[e]) ==>
              forall k :: start < k < |blocks| ==> !OverviewObjectivesMark(blocks[k])
    ensures (forall k :: start < k < |blocks| ==> !OverviewObjectivesMark(blocks[k])) ==>
              forall k :: start < k < e ==> !OverviewSyllabusMark(blocks[k])
  {
    match FindFirst(blocks, start + 1, OverviewObjectivesMark)
    case Some(o) => o
    case None =>
      match FindFirst(blocks, start + 1, OverviewSyllabusMark)
      case Some(y) => y
      case None => |blocks|
  }

  /** `slice(lo, hi).map(el => el.outerHTML).join("")`. */
  function Outers(blocks: seq<Block>, lo: nat, hi: nat): string
    requires lo <= hi <= |blocks|
    decreases hi - lo
  {
    if lo == hi then "" else blocks[lo].outer + Outers(blocks, lo + 1, hi)
  }

  /** The record after `extractOverview`. */
  function WithOverview(blocks: seq<Block>, cd: CourseData): CourseData {
    match FindFirst(blocks, 0, OverviewMark)
    case None => cd
    case Some(s) =>
      var overview := Outers(blocks, s + 1, OverviewEnd(blocks, s));
      cd.(overview := overview, overviewSections := [Section("Overview", overview)])
  }

  /** The overview is the markup of exactly the blocks strictly between the
      first block that mentions `overview` and its end, so when a syllabus
      boundary ends it no objectives boundary follows the heading. Without
      such a block the record is left as it was. */
  lemma {:induction false} OverviewIsWindow(blocks: seq<Block>, cd: CourseData)
    ensures FindFirst(blocks, 0, OverviewMark).None? ==> WithOverview(blocks, cd) == cd
    ensures FindFirst(blocks, 0, OverviewMark).Some? ==>
              var s := FindFirst(blocks, 0, OverviewMark).value;
              var e := OverviewEnd(blocks, s);
              && WithOverview(blocks, cd).overview == Outers(blocks, s + 1, e)
              && |WithOverview(blocks, cd).overview| == OutersLength(blocks, s + 1, e)
              && WithOverview(blocks, cd).overviewSections == [Section("Overview", WithOverview(blocks, cd).overview)]
              && WithOverview(blocks, cd).(overview := cd.overview, overviewSections := cd.overviewSections) == cd
  {
    match FindFirst(blocks, 0, OverviewMark)
    case None =>
    case Some(s) =>
      OutersLengthIs(blocks, s + 1, OverviewEnd(blocks, s));
  }

  /** The total length of the markup of blocks `lo` to `hi`. */
  function OutersLength(blocks: seq<Block>, lo: nat, hi: nat): nat
    requires lo <= hi <= |blocks|
    decreases hi - lo
  {
    if lo == hi then 0 else |blocks[lo].outer| + OutersLength(blocks, lo + 1, hi)
  }

  lemma {:induction false} OutersLengthIs(blocks: seq<Block>, lo: nat, hi: nat)
    requires lo <= hi <= |blocks|
    ensures |Outers(blocks, lo, hi)| == OutersLength(blocks, lo, hi)
    decreases hi - lo
  {
    if lo < hi {
      OutersLengthIs(blocks, lo + 1, hi);
    }
  }

  /** `extractOverview`. */
  method ExtractOverview(blocks: seq<Block>, cd: CourseData) returns (cd': CourseData)
    ensures cd' == WithOverview(blocks, cd)
  {
    cd' := cd;
    var overviewStart := FirstOfAll(blocks, OverviewMark);
    if overviewStart.Some? {
      var s := overviewStart.value;
      var objectivesStart := Scan(blocks, s + 1, OverviewObjectivesMark);
      var syllabusStart: Option<nat> := None;
      if objectivesStart.None? {
        syllabusStart := Scan(blocks, s + 1, OverviewSyllabusMark);
      }
      var overviewEnd := if objectivesStart.Some? then objectivesStart.value
                         else if syllabusStart.Some? then syllabusStart.value
                         else |blocks|;
      var overview := Outers(blocks, s + 1, overviewEnd);
      cd' := cd.(overview := overview, overviewSections := [Section("Overview", overview)]);
    }
  }

  // ---------------------------------------------------------------------
  // extractCourseObjectives (lines 147-211)
  // ---------------------------------------------------------------------

  /** The tests that open the objectives window. */
  predicate ObjectivesStartMark(b: Block) {
    var lt := ToLower(Text(b));
    Contains(lt, "course objectives") || Contains(lt, "learning objectives")
    || (Contains(lt, "objectives") && IsHeading(b.tag)) || NumberedObjectives(lt, false)
  }

  /** The tests that close it. */
  predicate ObjectivesStopMark(b: Block) {
    var lt := ToLower(Text(b));
    Contains(lt, "syllabus") || Contains(lt, "course content") || Contains(lt, "faq")
    || Contains(lt, "frequently asked") || StartsWith(lt, "1.3")
    || (IsHeadingIn(b.tag, 1, 3) && !Contains(lt, "objectives"))
  }

  /** `objectivesEnd` for a window opened at `start`. */
  function ObjectivesEnd(blocks: seq<Block>, start: nat): (e: nat)
    requires start < |blocks|
    ensures start < e <= |blocks|
    ensures e < |blocks| ==> ObjectivesStopMark(blocks[e])
    ensures forall k :: start < k < e ==> !ObjectivesStopMark(blocks[k])
  {
    match FindFirst(blocks, start + 1, ObjectivesStopMark)
    case Some(e) => e
    case None => |blocks|
  }

  /** `courseObjectivesIntro` and `courseObjectivesList`. */
  datatype Objectives = Objectives(intro: string, list: seq<string>)

  /** What the loop body does with one block of the window (lines 191-210). */
  function ObjStep(b: Block, st: Objectives): Objectives {
    var text := Text(b);
    if text == [] then st
    else if Contains(ToLower(text), "objectives") && IsHeading(b.tag) then st
    else if b.tag == P && st.intro == [] && |text| > 20 then st.(intro := Trim(b.inner))
    else if b.tag == UL || b.tag == OL then st.(list := st.list + NonEmptyTrims(b.items))
    else if b.tag == LI then
      var t := Trim(b.inner);
      if t != [] then st.(list := st.list + [t]) else st
    else st
  }

  /** The loop over blocks `i` to `end`. */
  function ObjRun(blocks: seq<Block>, i: nat, end: nat, st: Objectives): Objectives
    requires end <= |blocks|
    decreases end - i
  {
    if i >= end then st else ObjRun(blocks, i + 1, end, ObjStep(blocks[i], st))
  }

  /** The record after `extractCourseObjectives`. The window starts at the
      block that opened it, not behind it. */
  function WithObjectives(blocks: seq<Block>, cd: CourseData): CourseData {
    match FindFirst(blocks, 0, ObjectivesStartMark)
    case None => cd
    case Some(s) =>
      var st := ObjRun(blocks, s, ObjectivesEnd(blocks, s), Objectives(cd.courseObjectivesIntro, cd.courseObjectivesList));
      cd.(courseObjectivesIntro := st.intro, courseObjectivesList := st.list)
  }

  /** One step keeps the list's old entries, adds only non-empty trimmed
      ones, and never replaces an intro that is already set. */
  lemma ObjStepKeeps(b: Block, st: Objectives)
    requires AllSolid(st.list)
    ensures AllSolid(ObjStep(b, st).list)
    ensures st.list <= ObjStep(b, st).list
    ensures st.intro != [] ==> ObjStep(b, st).intro == st.intro
  {
    var r := ObjStep(b, st);
    if Text(b) != [] && !(Contains(ToLower(Text(b)), "objectives") && IsHeading(b.tag)) {
      if b.tag == UL || b.tag == OL {
        AllSolidAppend(st.list, NonEmptyTrims(b.items));
      } else if b.tag == LI && !(b.tag == P && st.intro == [] && |Text(b)| > 20) {
        AllSolidSnoc(st.list, Trim(b.inner));
      }
    }
  }

  lemma AllSolidAppend(a: seq<string>, c: seq<string>)
    requires AllSolid(a) && AllSolid(c)
    ensures AllSolid(a + c)
  {
    forall k | 0 <= k < |a + c| ensures (a + c)[k] != [] && Trimmed((a + c)[k]) {
      if k >= |a| {
        assert (a + c)[k] == c[k - |a|];
      }
    }
  }

  /** Over the whole window: every objective in the list is non-empty and
      trimmed, the entries already in the record stay first, and an intro
      once set is kept. */
  lemma {:induction false} ObjRunKeeps(blocks: seq<Block>, i: nat, end: nat, st: Objectives)
    requires end <= |blocks| && AllSolid(st.list)
    ensures AllSolid(ObjRun(blocks, i, end, st).list)
    ensures st.list <= ObjRun(blocks, i, end, st).list
    ensures st.intro != [] ==> ObjRun(blocks, i, end, st).intro == st.intro
    decreases end - i
  {
    if i < end {
      var st' := ObjStep(blocks[i], st);
      ObjStepKeeps(blocks[i], st);
      ObjRunKeeps(blocks, i + 1, end, st');
    }
  }

  /** Because the window includes the block that opened it, a long
      paragraph that mentions the course objectives becomes the intro when
      none was set. */
  lemma OpeningParagraphIsIntro(blocks: seq<Block>, cd: CourseData)
    requires FindFirst(blocks, 0, ObjectivesStartMark).Some?
    requires var b := blocks[FindFirst(blocks, 0, ObjectivesStartMark).value];
             b.tag == P && |Text(b)| > 20 && Trim(b.inner) != []
    requires cd.courseObjectivesIntro == []
    ensures WithObjectives(blocks, cd).courseObjectivesIntro
            == Trim(blocks[FindFirst(blocks, 0, ObjectivesStartMark).value].inner)
  {
    var s := FindFirst(blocks, 0, ObjectivesStartMark).value;
    var e := ObjectivesEnd(blocks, s);
    var st := Objectives(cd.courseObjectivesIntro, cd.courseObjectivesList);
    var st' := ObjStep(blocks[s], st);
    assert st'.intro == Trim(blocks[s].inner);
    ObjRunIntro(blocks, s + 1, e, st');
  }

  lemma {:induction false} ObjRunIntro(blocks: seq<Block>, i: nat, end: nat, st: Objectives)
    requires end <= |blocks| && st.intro != []
    ensures ObjRun(blocks, i, end, st).intro == st.intro
    decreases end - i
  {
    if i < end {
      ObjRunIntro(blocks, i + 1, end, ObjStep(blocks[i], st));
    }
  }

  /** From a fresh record, every objective extracted is a non-empty trimmed
      list item. */
  lemma ObjectivesSolid(blocks: seq<Block>, cd: CourseData)
    requires AllSolid(cd.courseObjectivesList)
    ensures AllSolid(WithObjectives(blocks, cd).courseObjectivesList)
    ensures cd.courseObjectivesList <= WithObjectives(blocks, cd).courseObjectivesList
  {
    match FindFirst(blocks, 0, ObjectivesStartMark)
    case None =>
    case Some(s) =>
      ObjRunKeeps(blocks, s, ObjectivesEnd(blocks, s), Objectives(cd.courseObjectivesIntro, cd.courseObjectivesList));
  }

  /** The `forEach` over the `li` items of a list block. */
  method CollectObjectiveItems(items: seq<string>) returns (kept: seq<string>)
    ensures kept == NonEmptyTrims(items)
  {
    kept := [];
    var k := 0;
    while k < |items|
      invariant 0 <= k <= |items|
      invariant kept == NonEmptyTrims(items[..k])
    {
      assert items[..k + 1][..k] == items[..k];
      var itemText := Trim(items[k]);
      if itemText != [] {
        kept := kept + [itemText];
      }
      k := k + 1;
    }
    assert items[..k] == items;
  }

  /** One iteration of the loop over the window. */
  method ObjectivesBlock(b: Block, st: Objectives) returns (st': Objectives)
    ensures st' == ObjStep(b, st)
  {
    st' := st;
    var text := Text(b);
    if text == [] {
      return;
    }
    if Contains(ToLower(text), "objectives") && IsHeading(b.tag) {
      return;
    }
    if b.tag == P && st.intro == [] && |text| > 20 {
      st' := st.(intro := Trim(b.inner));
      return;
    }
    if b.tag == UL || b.tag == OL {
      var items := CollectObjectiveItems(b.items);
      st' := st'.(list := st'.list + items);
    }
    if b.tag == LI {
      var itemText := Trim(b.inner);
      if itemText != [] {
        st' := st'.(list := st'.list + [itemText]);
      }
    }
  }

  /** `extractCourseObjectives`. */
  method ExtractCourseObjectives(blocks: seq<Block>, cd: CourseData) returns (cd': CourseData)
    ensures cd' == WithObjectives(blocks, cd)
  {
    var objectivesStart := Scan(blocks, 0, ObjectivesStartMark);
    if objectivesStart.None? {
      return cd;
    }
    var s := objectivesStart.value;
    var found := Scan(blocks, s + 1, ObjectivesStopMark);
    var objectivesEnd := if found.Some? then found.value else |blocks|;
    var st := Objectives(cd.courseObjectivesIntro, cd.courseObjectivesList);
    var i := s;
    while i < objectivesEnd
      invariant s <= i <= objectivesEnd
      invariant ObjRun(blocks, i, objectivesEnd, st)
                == ObjRun(blocks, s, objectivesEnd, Objectives(cd.courseObjectivesIntro, cd.courseObjectivesList))
      decreases objectivesEnd - i
    {
      st := ObjectivesBlock(blocks[i], st);
      i := i + 1;
    }
    cd' := cd.(courseObjectivesIntro := st.intro, courseObjectivesList := st.list);
  }

  // ---------------------------------------------------------------------
  // extractCourseContent (lines 106-117) and the synchronous part of
  // processCourseFile (lines 82-104)
  // ---------------------------------------------------------------------

  /** The record after the four extractors ran on it. */
  function CourseContent(blocks: seq<Block>, cd: CourseData): CourseData {
    var c1 := WithObjectives(blocks, WithOverview(blocks, cd));
    c1.(syllabusModules := SyllabusModules(blocks, c1.courseTitle),
        faqData := CourseFaqs(blocks), fileProcessed := true)
  }

  /** `courseName || "Course Name"`. */
  function CourseTitle(courseName: string): string {
    if courseName == [] then "Course Name" else courseName
  }

  /** What `processCourseFile` resolves with, for the converted blocks. */
  function ProcessedCourse(blocks: seq<Block>, courseName: string): CourseData {
    CourseContent(blocks, Reset.(courseTitle := CourseTitle(courseName)))
  }

  /** A processed course is marked processed, keeps its title, holds the
      sorted syllabus and the cleaned FAQs, every objective is a non-empty
      trimmed item, and the two fields no extractor writes stay empty. */
  lemma ProcessedCourseFields(blocks: seq<Block>, courseName: string)
    ensures var cd := ProcessedCourse(blocks, courseName);
            && cd.fileProcessed
            && cd.courseTitle == CourseTitle(courseName) != []
            && cd.syllabusModules == SyllabusModules(blocks, CourseTitle(courseName))
            && cd.faqData == CourseFaqs(blocks)
            && AllSolid(cd.courseObjectivesList)
            && cd.courseObjectives == [] && cd.syllabus == []
            && (cd.overviewSections == [] || cd.overviewSections == [Section("Overview", cd.overview)])
  {
    var c0 := Reset.(courseTitle := CourseTitle(courseName));
    OverviewIsWindow(blocks, c0);
    ObjectivesSolid(blocks, WithOverview(blocks, c0));
  }

  /** `extractCourseContent`. */
  method ExtractCourseContent(blocks: seq<Block>, cd: CourseData) returns (cd': CourseData)
    ensures cd' == CourseContent(blocks, cd)
  {
    cd' := ExtractOverview(blocks, cd);
    cd' := ExtractCourseObjectives(blocks, cd');
    var modules := ExtractAllSyllabusContent(blocks, cd'.courseTitle);
    cd' := cd'.(syllabusModules := modules);
    var faqs := ExtractFaqContent(blocks);
    cd' := cd'.(faqData := faqs);
    cd' := cd'.(fileProcessed := true);
  }

  /** The synchronous part of `processCourseFile`: reset, set the title,
      extract. */
  method ProcessCourse(blocks: seq<Block>, courseName: string) returns (cd: CourseData)
    ensures cd == ProcessedCourse(blocks, courseName)
  {
    cd := Reset;
    cd := cd.(courseTitle := if courseName != [] then courseName else "Course Name");
    cd := ExtractCourseContent(blocks, cd);
  }
}
