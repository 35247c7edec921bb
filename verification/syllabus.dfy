/** The course structure builder (`extractAllSyllabusContent` and its
    fallback `extractLessonsDirectly`): a state machine over the blocks of the
    syllabus window that opens modules and lessons and collects list items
    into them, followed by the ordinal sort of lessons and modules. */
module Syllabus {
  import opened Strings
  import opened Blocks
  import opened Patterns
  import opened Ordinal

  datatype Lesson = Lesson(title: string, items: seq<string>)
  datatype Module = Module(title: string, description: string, lessons: seq<Lesson>)

  /** The live state: finished modules, the open module, the open lesson. */
  datatype Builder = Builder(modules: seq<Module>, current: Option<Module>, lesson: Option<Lesson>)

  function LessonKey(l: Lesson): Option<nat> { LessonNumber(l.title) }
  function ModuleKey(m: Module): Option<nat> { ModuleNumber(m.title) }

  /** `${courseData.courseTitle || 'Course'} Content`. */
  function DefaultModuleTitle(courseTitle: string): string {
    (if courseTitle == "" then "Course" else courseTitle) + " Content"
  }

  // ---------------------------------------------------------------------
  // Locating the syllabus window (lines 223-259)
  // ---------------------------------------------------------------------

  predicate ObjectivesLine(lt: string) {
    Contains(lt, "course objectives") || NumberedObjectives(lt, true)
  }

  predicate SyllabusWords(lt: string) {
    Contains(lt, "course content") || Contains(lt, "syllabus") || Contains(lt, "lessons") || Contains(lt, "modules")
  }

  predicate SyllabusStopWords(lt: string) {
    Contains(lt, "final examination") || Contains(lt, "faq") || Contains(lt, "frequently asked questions")
  }

  /** The objectives heading the syllabus search starts behind. */
  predicate ObjectivesHeading(b: Block) {
    var lt := ToLower(Text(b));
    (Contains(lt, "course objectives") || Contains(lt, "1.2"))
    && (IsHeading(b.tag) || NumberedObjectives(lt, true))
  }

  predicate ObjectivesEndMark(b: Block) {
    var lt := ToLower(Text(b));
    Contains(lt, "syllabus") || Contains(lt, "1.3") || Contains(lt, "course content")
  }

  predicate SyllabusHeading(b: Block) {
    var lt := ToLower(Text(b));
    SyllabusWords(lt) && !Contains(lt, "course objectives")
  }

  /** `objectivesEndIndex`: the first end mark behind the first objectives
      heading; none when either is missing. */
  function ObjectivesEndIndex(blocks: seq<Block>): (r: Option<nat>)
    ensures r.Some? ==> r.value < |blocks| && ObjectivesEndMark(blocks[r.value])
    ensures r.Some? ==> exists h :: 0 <= h < r.value && ObjectivesHeading(blocks[h])
  {
    match FindFirst(blocks, 0, ObjectivesHeading)
    case None => None
    case Some(h) => FindFirst(blocks, h + 1, ObjectivesEndMark)
  }

  /** Where the search for the syllabus heading starts. */
  function SearchFrom(blocks: seq<Block>): (r: nat)
    ensures r <= |blocks|
  {
    match ObjectivesEndIndex(blocks)
    case None => 0
    case Some(e) => e
  }

  /** `syllabusStartIndex` when a syllabus heading was found
      (`foundSyllabusContent`). */
  function SyllabusHeadingIndex(blocks: seq<Block>): Option<nat> {
    FindFirst(blocks, SearchFrom(blocks), SyllabusHeading)
  }

  /** `syllabusStartIndex`: the syllabus heading, else where the search began. */
  function SyllabusStart(blocks: seq<Block>): (s: nat)
    ensures s <= |blocks|
    ensures SyllabusHeadingIndex(blocks).Some? ==> s < |blocks| && SyllabusHeading(blocks[s])
    ensures forall k :: SearchFrom(blocks) <= k < s ==> !SyllabusHeading(blocks[k])
  {
    match SyllabusHeadingIndex(blocks)
    case Some(i) => i
    case None => SearchFrom(blocks)
  }

  // ---------------------------------------------------------------------
  // The rule table of the builder (lines 261-374)
  // ---------------------------------------------------------------------

  /** What the main loop does with one block. */
  datatype Role =
    | Skip            // empty, an objectives line, or the syllabus heading itself
    | Stop            // final examination, FAQ, or a later top heading
    | ModuleMarker    // `Module N:` opens a module
    | LessonMarker    // one or more `Lesson N:` open lessons
    | ListItems       // a `ul` feeding the open lesson
    | ItemIntoLesson  // a bare `li` feeding the open lesson
    | ItemAsLesson    // a bare `li` that becomes a lesson of its own
    | Description     // a paragraph that describes the open module
    | Ignored

  /** What each role needs of the builder to be carried out. */
  predicate Fits(role: Role, text: string, b: Builder) {
    match role
    case LessonMarker => HasLessonMarker(text)
    case ListItems => b.lesson.Some?
    case ItemIntoLesson => b.lesson.Some?
    case ItemAsLesson => b.current.Some? && b.lesson.None?
    case Description => b.current.Some?
    case _ => true
  }

  function Classify(blocks: seq<Block>, i: nat, start: nat, b: Builder): (r: Role)
    requires i < |blocks|
    ensures Fits(r, Text(blocks[i]), b)
  {
    var block := blocks[i];
    var text := Text(block);
    var lt := ToLower(text);
    if text == "" then Skip
    else if ObjectivesLine(lt) || SyllabusWords(lt) then Skip
    else if SyllabusStopWords(lt) || (IsHeadingIn(block.tag, 1, 3) && i > start + 2) then Stop
    else if IsModuleMarker(text) then ModuleMarker
    else if HasLessonMarker(text) then LessonMarker
    else if block.tag == UL && b.lesson.Some? then ListItems
    else if block.tag == LI && !PrefixMarker(text, "lesson", true) then
      (if b.lesson.Some? then ItemIntoLesson
       else if b.current.Some? && |text| > 10 then ItemAsLesson
       else Ignored)
    else if block.tag == P && b.current.Some? && b.current.value.description == ""
            && |text| > 20 && !PrefixMarker(text, "module", true) && !PrefixMarker(text, "lesson", true) then
      Description
    else Ignored
  }

  /** A list item a lesson keeps: non-empty and not itself a `Lesson N:` line. */
  predicate KeptItem(t: string) {
    t != [] && !PrefixMarker(t, "lesson", true)
  }

  /** The list items a lesson keeps: trimmed, non-empty, and not themselves
      a `Lesson N:` line. */
  function KeptItems(items: seq<string>): (r: seq<string>)
    ensures |r| <= |items|
    ensures forall k :: 0 <= k < |r| ==> KeptItem(r[k])
  {
    if items == [] then []
    else
      var t := Trim(items[|items| - 1]);
      KeptItems(items[..|items| - 1]) + (if KeptItem(t) then [t] else [])
  }

  /** An item anywhere in the list is kept, trimmed and in its place
      between the items kept before it and those kept after it, exactly when
      it is non-empty and not a `Lesson N:` line. */
  lemma KeptItemsAt(before: seq<string>, item: string, after: seq<string>)
    ensures KeptItems(before + [item] + after)
            == KeptItems(before) + (if KeptItem(Trim(item)) then [Trim(item)] else []) + KeptItems(after)
  {
    KeptItemsAppend(before + [item], after);
    KeptItemsAppend(before, [item]);
  }

  /** The items kept from a concatenation are those kept from each part, in
      order; a single item is kept, trimmed, exactly when it is non-empty and
      not a `Lesson N:` line. */
  lemma {:induction false} KeptItemsAppend(a: seq<string>, b: seq<string>)
    ensures KeptItems(a + b) == KeptItems(a) + KeptItems(b)
    ensures |b| == 1 ==> KeptItems(b) == (var t := Trim(b[0]); if KeptItem(t) then [t] else [])
    decreases |b|
  {
    if b != [] {
      var init := b[..|b| - 1];
      assert (a + b)[..|a + b| - 1] == a + init;
      assert (a + b)[|a + b| - 1] == b[|b| - 1];
      KeptItemsAppend(a, init);
      var t := Trim(b[|b| - 1]);
      var last := if KeptItem(t) then [t] else [];
      assert KeptItems(b) == KeptItems(init) + last;
      assert KeptItems(a + b) == KeptItems(a + init) + last;
      if |b| == 1 {
        assert init == [];
      }
    } else {
      assert a + b == a;
    }
  }

  function TrimAll(items: seq<string>): (r: seq<string>)
    ensures |r| == |items|
  {
    seq(|items|, k requires 0 <= k < |items| => Trim(items[k]))
  }

  /** The lessons made from the second and later segments of one block. */
  function ExtraLessons(segments: seq<string>): (r: seq<Lesson>)
    ensures |r| <= |segments|
  {
    if segments == [] then []
    else
      var t := Trim(segments[|segments| - 1]);
      ExtraLessons(segments[..|segments| - 1]) + (if t != [] then [Lesson(t, [])] else [])
  }

  /** The paragraph of the next two blocks that describes a new module. */
  function DescriptionFrom(blocks: seq<Block>, j: nat, stop: nat): (r: string)
    requires stop <= |blocks|
    decreases stop - j
  {
    if j >= stop then ""
    else
      var t := Text(blocks[j]);
      var final := Contains(ToLower(t), "final examination");
      if blocks[j].tag == P && t != "" && !PrefixMarker(t, "module", true) && !PrefixMarker(t, "lesson", true)
         && !PrefixMarker(t, "module", false) && !PrefixMarker(t, "lesson", false) && !final then t
      else if final then ""
      else DescriptionFrom(blocks, j + 1, stop)
  }

  function LookAheadDescription(blocks: seq<Block>, i: nat): string
    requires i < |blocks|
  {
    DescriptionFrom(blocks, i + 1, if i + 3 < |blocks| then i + 3 else |blocks|)
  }

  /** Puts the open lesson, if any, at the end of module `m`. */
  function FlushLesson(m: Module, l: Option<Lesson>): Module {
    if l.Some? then m.(lessons := m.lessons + [l.value]) else m
  }

  /** The lesson a marker block opens: the first segment as its title and the
      items of its nested list. */
  function OpenedLesson(block: Block): Lesson {
    var text := Text(block);
    var segments := SplitLessonSegments(text);
    Lesson(if |segments| > 0 && segments[0] != [] then segments[0] else text, KeptItems(block.nested))
  }

  /** A module marker: the open lesson goes into the open module, which is
      finished, and a new module opens with the look-ahead description. */
  function NewModule(blocks: seq<Block>, i: nat, b: Builder): Builder
    requires i < |blocks|
  {
    var modules := if b.current.Some? then b.modules + [FlushLesson(b.current.value, b.lesson)] else b.modules;
    var lesson := if b.current.Some? then None else b.lesson;
    Builder(modules, Some(Module(Text(blocks[i]), LookAheadDescription(blocks, i), [])), lesson)
  }

  /** A block with lesson markers: the open lesson goes into the module
      (opened under the default title when there is none), the later
      segments follow it as lessons without items, and the first segment
      becomes the open lesson. */
  function NewLessons(blocks: seq<Block>, i: nat, courseTitle: string, b: Builder): Builder
    requires i < |blocks|
  {
    var m := FlushLesson(if b.current.Some? then b.current.value else Module(DefaultModuleTitle(courseTitle), "", []), b.lesson);
    var segments := SplitLessonSegments(Text(blocks[i]));
    var extras := if |segments| > 1 then ExtraLessons(segments[1..]) else [];
    Builder(b.modules, Some(m.(lessons := m.lessons + extras)), Some(OpenedLesson(blocks[i])))
  }

  /** Carries out the action of `role` on block `i`; `None` is the loop's
      `break`. */
  function Apply(role: Role, blocks: seq<Block>, i: nat, courseTitle: string, b: Builder): Option<Builder>
    requires i < |blocks| && Fits(role, Text(blocks[i]), b)
  {
    var block := blocks[i];
    var text := Text(block);
    match role
    case Stop => None
    case ModuleMarker => Some(NewModule(blocks, i, b))
    case LessonMarker => Some(NewLessons(blocks, i, courseTitle, b))
    case ListItems =>
      Some(b.(lesson := Some(b.lesson.value.(items := b.lesson.value.items + KeptItems(block.items)))))
    case ItemIntoLesson =>
      Some(b.(lesson := Some(b.lesson.value.(items := b.lesson.value.items + [Trim(block.inner)]))))
    case ItemAsLesson =>
      var n := |b.current.value.lessons| + 1;
      Some(b.(lesson := Some(Lesson(SynthesizedLessonTitle(n, text), [Trim(block.inner)]))))
    case Description =>
      Some(b.(current := Some(b.current.value.(description := text))))
    case Skip => Some(b)
    case Ignored => Some(b)
  }

  /** One iteration of the main loop. */
  function Step(blocks: seq<Block>, i: nat, start: nat, courseTitle: string, b: Builder): Option<Builder>
    requires i < |blocks|
  {
    Apply(Classify(blocks, i, start, b), blocks, i, courseTitle, b)
  }

  /** The main loop from block `i` on. */
  function Run(blocks: seq<Block>, i: nat, start: nat, courseTitle: string, b: Builder): Builder
    decreases |blocks| - i
  {
    if i >= |blocks| then b
    else match Step(blocks, i, start, courseTitle, b)
      case None => b
      case Some(b') => Run(blocks, i + 1, start, courseTitle, b')
  }

  /** The flush after the loop (lines 376-388). */
  function Finish(b: Builder, courseTitle: string): seq<Module> {
    var current :=
      if b.lesson.Some? then
        (if b.current.Some? then Some(FlushLesson(b.current.value, b.lesson))
         else Some(Module(DefaultModuleTitle(courseTitle), "", [b.lesson.value])))
      else b.current;
    b.modules + (if current.Some? then [current.value] else [])
  }

  const Empty := Builder([], None, None)

  // ---------------------------------------------------------------------
  // extractLessonsDirectly (lines 403-472)
  // ---------------------------------------------------------------------

  datatype Direct = Direct(lessons: seq<Lesson>, lesson: Option<Lesson>, inSection: bool)

  /** `text.match(/\d+\./)`. */
  predicate HasNumberDot(text: string) {
    exists k | 0 <= k < |text| - 1 :: IsDigit(text[k]) && text[k + 1] == '.'
  }

  predicate DirectLessonTitle(block: Block) {
    var text := Text(block);
    PrefixMarker(text, "lesson", true) || PrefixMarker(text, "lesson", false)
    || (block.tag == P && HasNumberDot(text))
    || (IsHeadingIn(block.tag, 3, 4) && |text| < 100)
  }

  function DirectStep(blocks: seq<Block>, i: nat, startIndex: nat, d: Direct): Option<Direct>
    requires i < |blocks|
  {
    var block := blocks[i];
    var text := Text(block);
    var lt := ToLower(text);
    if text == "" || ObjectivesLine(lt) then Some(d)
    else if !d.inSection && (Contains(lt, "course content") || Contains(lt, "syllabus") || Contains(lt, "lessons")) then
      Some(d.(inSection := true))
    else if d.inSection && (Contains(lt, "final examination") || Contains(lt, "faq")
                            || (IsHeadingIn(block.tag, 1, 3) && i > startIndex + 3 && !Contains(lt, "lesson"))) then
      None
    else if !d.inSection then Some(d)
    else if DirectLessonTitle(block) then
      Some(Direct(d.lessons + (if d.lesson.Some? then [d.lesson.value] else []),
                  Some(Lesson(text, TrimAll(block.nested))), true))
    else if block.tag == UL && d.lesson.Some? then
      Some(d.(lesson := Some(d.lesson.value.(items := d.lesson.value.items + KeptItems(block.items)))))
    else if block.tag == LI && d.lesson.Some? && !PrefixMarker(text, "lesson", true) then
      Some(d.(lesson := Some(d.lesson.value.(items := d.lesson.value.items + [Trim(block.inner)]))))
    else Some(d)
  }

  function DirectRun(blocks: seq<Block>, i: nat, startIndex: nat, d: Direct): Direct
    decreases |blocks| - i
  {
    if i >= |blocks| then d
    else match DirectStep(blocks, i, startIndex, d)
      case None => d
      case Some(d') => DirectRun(blocks, i + 1, startIndex, d')
  }

  /** The flatter fallback: every lesson found goes into one synthetic module,
      sorted by lesson number; no lesson, no module. */
  function LessonsDirectly(blocks: seq<Block>, startIndex: nat, courseTitle: string): (r: seq<Module>)
    ensures |r| <= 1
    ensures r != [] ==> r[0].title == DefaultModuleTitle(courseTitle) && r[0].description == ""
                        && r[0].lessons != [] && Sorted(r[0].lessons, LessonKey)
  {
    var d := DirectRun(blocks, startIndex, startIndex, Direct([], None, false));
    var lessons := d.lessons + (if d.lesson.Some? then [d.lesson.value] else []);
    SortNumberedCorrect(lessons, LessonKey);
    if lessons == [] then []
    else [Module(DefaultModuleTitle(courseTitle), "", SortNumbered(lessons, LessonKey))]
  }

  // ---------------------------------------------------------------------
  // The whole builder
  // ---------------------------------------------------------------------

  function SortLessons(m: Module): Module {
    if |m.lessons| > 0 then m.(lessons := SortNumbered(m.lessons, LessonKey)) else m
  }

  function SortAllLessons(modules: seq<Module>): (r: seq<Module>)
    ensures |r| == |modules|
  {
    seq(|modules|, k requires 0 <= k < |modules| => SortLessons(modules[k]))
  }

  /** The modules before sorting: the state machine's, or the fallback's when
      it found none although a syllabus heading exists. */
  function UnsortedModules(blocks: seq<Block>, courseTitle: string): seq<Module> {
    var start := SyllabusStart(blocks);
    var built := Finish(Run(blocks, start, start, courseTitle, Empty), courseTitle);
    if |built| == 0 && SyllabusHeadingIndex(blocks).Some? then LessonsDirectly(blocks, start, courseTitle)
    else built
  }

  /** `extractAllSyllabusContent`. */
  function SyllabusModules(blocks: seq<Block>, courseTitle: string): seq<Module> {
    SortNumbered(SortAllLessons(UnsortedModules(blocks, courseTitle)), ModuleKey)
  }
  // ---------------------------------------------------------------------
  // What the builder keeps
  // ---------------------------------------------------------------------

  /** A lesson is only ever open inside an open module. */
  predicate Consistent(b: Builder) {
    b.lesson.Some? ==> b.current.Some?
  }

  function LessonsOf(m: Module): nat { |m.lessons| }

  /** All lessons of the modules. */
  function LessonCount(modules: seq<Module>): nat { Sum(modules, LessonsOf) }

  /** The lessons the builder holds: finished, in the open module, and open. */
  function LessonTotal(b: Builder): nat {
    LessonCount(b.modules) + (if b.current.Some? then |b.current.value.lessons| else 0)
    + (if b.lesson.Some? then 1 else 0)
  }

  function ModuleTotal(b: Builder): nat {
    |b.modules| + (if b.current.Some? then 1 else 0)
  }

  /** How many lessons a block opens, by its role. */
  function Opened(role: Role, text: string): nat {
    match role
    case LessonMarker => CountMarkers(ToLower(text), 0)
    case ItemAsLesson => 1
    case _ => 0
  }

  lemma ApplyConsistent(role: Role, blocks: seq<Block>, i: nat, courseTitle: string, b: Builder)
    requires i < |blocks| && Fits(role, Text(blocks[i]), b) && Consistent(b)
    requires Apply(role, blocks, i, courseTitle, b).Some?
    ensures Consistent(Apply(role, blocks, i, courseTitle, b).value)
  {
  }

  lemma StepConsistent(blocks: seq<Block>, i: nat, start: nat, courseTitle: string, b: Builder)
    requires i < |blocks| && Consistent(b)
    requires Step(blocks, i, start, courseTitle, b).Some?
    ensures Consistent(Step(blocks, i, start, courseTitle, b).value)
  {
    ApplyConsistent(Classify(blocks, i, start, b), blocks, i, courseTitle, b);
  }

  lemma {:induction false} RunConsistent(blocks: seq<Block>, i: nat, start: nat, courseTitle: string, b: Builder)
    requires Consistent(b)
    ensures Consistent(Run(blocks, i, start, courseTitle, b))
    decreases |blocks| - i
  {
    if i < |blocks| && Step(blocks, i, start, courseTitle, b).Some? {
      StepConsistent(blocks, i, start, courseTitle, b);
      RunConsistent(blocks, i + 1, start, courseTitle, Step(blocks, i, start, courseTitle, b).value);
    }
  }

  /** The flush after the loop never has to make up a module for an orphan
      lesson: that branch is dead code. */
  lemma FinalFlushHasModule(blocks: seq<Block>, courseTitle: string)
    ensures var start := SyllabusStart(blocks);
            var b := Run(blocks, start, start, courseTitle, Empty);
            b.lesson.Some? ==> b.current.Some?
  {
    var start := SyllabusStart(blocks);
    RunConsistent(blocks, start, start, courseTitle, Empty);
  }

  lemma LessonCountPush(modules: seq<Module>, m: Module)
    ensures LessonCount(modules + [m]) == LessonCount(modules) + |m.lessons|
  {
    assert (modules + [m])[..|modules|] == modules;
  }

  lemma ModuleMarkerAccounting(blocks: seq<Block>, i: nat, courseTitle: string, b: Builder)
    requires i < |blocks| && Consistent(b)
    ensures var b' := NewModule(blocks, i, b);
            LessonTotal(b') == LessonTotal(b) && ModuleTotal(b') == ModuleTotal(b) + 1
  {
    if b.current.Some? {
      LessonCountPush(b.modules, FlushLesson(b.current.value, b.lesson));
    }
  }

  /** Non-empty trimmed segments each become one lesson. */
  lemma {:induction false} ExtraLessonsOfSolid(segments: seq<string>)
    requires AllSolid(segments)
    ensures |ExtraLessons(segments)| == |segments|
  {
    if segments != [] {
      var init := segments[..|segments| - 1];
      assert AllSolid(init) by {
        forall k | 0 <= k < |init| ensures init[k] != [] && Trimmed(init[k]) {
          assert init[k] == segments[k];
        }
      }
      ExtraLessonsOfSolid(init);
    }
  }

  /** A marker block's segments after the first each become a lesson. */
  lemma ExtraLessonsCount(text: string)
    requires HasLessonMarker(text)
    ensures var segments := SplitLessonSegments(text);
            |segments| == CountMarkers(ToLower(text), 0) && |segments| > 0
            && (|segments| > 1 ==> |ExtraLessons(segments[1..])| == |segments| - 1)
  {
    var segments := SplitLessonSegments(text);
    SplitLessonSegmentsCount(text);
    if |segments| > 1 {
      var tail := segments[1..];
      assert AllSolid(tail) by {
        forall k | 0 <= k < |tail| ensures tail[k] != [] && Trimmed(tail[k]) {
          assert tail[k] == segments[k + 1];
        }
      }
      ExtraLessonsOfSolid(tail);
    }
  }

  lemma LessonMarkerAccounting(blocks: seq<Block>, i: nat, courseTitle: string, b: Builder)
    requires i < |blocks| && HasLessonMarker(Text(blocks[i]))
    ensures var b' := NewLessons(blocks, i, courseTitle, b);
            LessonTotal(b') == LessonTotal(b) + CountMarkers(ToLower(Text(blocks[i])), 0)
            && ModuleTotal(b') == ModuleTotal(b) + (if b.current.None? then 1 else 0)
  {
    var text := Text(blocks[i]);
    var segments := SplitLessonSegments(text);
    ExtraLessonsCount(text);
    var extras := if |segments| > 1 then ExtraLessons(segments[1..]) else [];
    var m0 := if b.current.Some? then b.current.value else Module(DefaultModuleTitle(courseTitle), "", []);
    var m := FlushLesson(m0, b.lesson);
    assert |m.lessons| == |m0.lessons| + (if b.lesson.Some? then 1 else 0);
    var b' := Builder(b.modules, Some(m.(lessons := m.lessons + extras)), Some(OpenedLesson(blocks[i])));
    assert NewLessons(blocks, i, courseTitle, b) == b';
  }

  /** Each action adds exactly the lessons its role opens and loses none:
      a marker block opens one lesson per `Lesson N:` marker in it, a bare
      list item opens at most one. A module marker, or a marker block without
      an open module, adds one module. */
  lemma ApplyAccounting(role: Role, blocks: seq<Block>, i: nat, courseTitle: string, b: Builder)
    requires i < |blocks| && Fits(role, Text(blocks[i]), b) && Consistent(b)
    requires Apply(role, blocks, i, courseTitle, b).Some?
    ensures var b' := Apply(role, blocks, i, courseTitle, b).value;
            LessonTotal(b') == LessonTotal(b) + Opened(role, Text(blocks[i]))
            && ModuleTotal(b') == ModuleTotal(b)
               + (if role == ModuleMarker || (role == LessonMarker && b.current.None?) then 1 else 0)
  {
    match role
    case ModuleMarker => ModuleMarkerAccounting(blocks, i, courseTitle, b);
    case LessonMarker => LessonMarkerAccounting(blocks, i, courseTitle, b);
    case _ =>
  }

  lemma StepAccounting(blocks: seq<Block>, i: nat, start: nat, courseTitle: string, b: Builder)
    requires i < |blocks| && Consistent(b)
    requires Step(blocks, i, start, courseTitle, b).Some?
    ensures var role := Classify(blocks, i, start, b);
            var b' := Step(blocks, i, start, courseTitle, b).value;
            LessonTotal(b') == LessonTotal(b) + Opened(role, Text(blocks[i]))
            && ModuleTotal(b') == ModuleTotal(b) + ModulesAdded(role, b)
  {
    ApplyAccounting(Classify(blocks, i, start, b), blocks, i, courseTitle, b);
  }

  /** How many modules a block adds, by its role and the builder state. */
  function ModulesAdded(role: Role, b: Builder): nat {
    if role == ModuleMarker || (role == LessonMarker && b.current.None?) then 1 else 0
  }

  /** The lessons the blocks open over the steps the main loop takes from
      block `i` on, up to the `break` or the end. */
  function OpenedFrom(blocks: seq<Block>, i: nat, start: nat, courseTitle: string, b: Builder): nat
    decreases |blocks| - i
  {
    if i >= |blocks| then 0
    else match Step(blocks, i, start, courseTitle, b)
      case None => 0
      case Some(b') =>
        Opened(Classify(blocks, i, start, b), Text(blocks[i])) + OpenedFrom(blocks, i + 1, start, courseTitle, b')
  }

  /** The modules the blocks open over the same steps. */
  function ModulesOpenedFrom(blocks: seq<Block>, i: nat, start: nat, courseTitle: string, b: Builder): nat
    decreases |blocks| - i
  {
    if i >= |blocks| then 0
    else match Step(blocks, i, start, courseTitle, b)
      case None => 0
      case Some(b') =>
        ModulesAdded(Classify(blocks, i, start, b), b) + ModulesOpenedFrom(blocks, i + 1, start, courseTitle, b')
  }

  /** The whole loop adds exactly the lessons and modules its steps open,
      and loses none. */
  lemma {:induction false} RunAccounting(blocks: seq<Block>, i: nat, start: nat, courseTitle: string, b: Builder)
    requires Consistent(b)
    ensures LessonTotal(Run(blocks, i, start, courseTitle, b)) == LessonTotal(b) + OpenedFrom(blocks, i, start, courseTitle, b)
    ensures ModuleTotal(Run(blocks, i, start, courseTitle, b)) == ModuleTotal(b) + ModulesOpenedFrom(blocks, i, start, courseTitle, b)
    decreases |blocks| - i
  {
    if i < |blocks| && Step(blocks, i, start, courseTitle, b).Some? {
      StepAccounting(blocks, i, start, courseTitle, b);
      StepConsistent(blocks, i, start, courseTitle, b);
      RunAccounting(blocks, i + 1, start, courseTitle, Step(blocks, i, start, courseTitle, b).value);
    }
  }

  /** The flush after the loop turns every held lesson and module into an
      output one. */
  lemma FinishAccounting(b: Builder, courseTitle: string)
    requires Consistent(b)
    ensures LessonCount(Finish(b, courseTitle)) == LessonTotal(b)
    ensures |Finish(b, courseTitle)| == ModuleTotal(b)
  {
    if b.current.Some? {
      LessonCountPush(b.modules, FlushLesson(b.current.value, b.lesson));
    } else {
      assert Finish(b, courseTitle) == b.modules;
    }
  }

  lemma {:induction false} SumPointwise(a: seq<Module>, c: seq<Module>)
    requires |a| == |c|
    requires forall k :: 0 <= k < |a| ==> |a[k].lessons| == |c[k].lessons|
    ensures LessonCount(a) == LessonCount(c)
    decreases |a|
  {
    if a != [] {
      SumPointwise(a[..|a| - 1], c[..|c| - 1]);
    }
  }

  /** Sorting lessons and modules drops no lesson. */
  lemma SortingKeepsLessons(blocks: seq<Block>, courseTitle: string)
    ensures LessonCount(SyllabusModules(blocks, courseTitle)) == LessonCount(UnsortedModules(blocks, courseTitle))
  {
    var u := UnsortedModules(blocks, courseTitle);
    var v := SortAllLessons(u);
    SumSorted(v, ModuleKey, LessonsOf);
    SumPointwise(v, u);
  }

  /** Without the fallback, every lesson and every module the blocks open
      between the syllabus heading and the `break` comes out exactly once.
      The fallback runs only when the loop opened no module at all. */
  lemma SyllabusKeepsEveryLesson(blocks: seq<Block>, courseTitle: string)
    ensures var start := SyllabusStart(blocks);
            var lessons := OpenedFrom(blocks, start, start, courseTitle, Empty);
            var modules := ModulesOpenedFrom(blocks, start, start, courseTitle, Empty);
            (modules > 0 || SyllabusHeadingIndex(blocks).None?) ==>
              LessonCount(SyllabusModules(blocks, courseTitle)) == lessons
              && |SyllabusModules(blocks, courseTitle)| == modules
  {
    var start := SyllabusStart(blocks);
    var b := Run(blocks, start, start, courseTitle, Empty);
    RunAccounting(blocks, start, start, courseTitle, Empty);
    RunConsistent(blocks, start, start, courseTitle, Empty);
    FinishAccounting(b, courseTitle);
    SortingKeepsLessons(blocks, courseTitle);
    var v := SortAllLessons(UnsortedModules(blocks, courseTitle));
    SortNumberedPermutes(v, ModuleKey);
    assert |SortNumbered(v, ModuleKey)| == |multiset(SortNumbered(v, ModuleKey))| == |multiset(v)|;
  }

  /** The result is in module order, and every module's lessons are in
      lesson order. */
  lemma SyllabusOrdered(blocks: seq<Block>, courseTitle: string)
    ensures Sorted(SyllabusModules(blocks, courseTitle), ModuleKey)
    ensures forall k :: 0 <= k < |SyllabusModules(blocks, courseTitle)| ==>
              Sorted(SyllabusModules(blocks, courseTitle)[k].lessons, LessonKey)
  {
    var u := UnsortedModules(blocks, courseTitle);
    var v := SortAllLessons(u);
    var r := SortNumbered(v, ModuleKey);
    SortNumberedCorrect(v, ModuleKey);
    forall k | 0 <= k < |r| ensures Sorted(r[k].lessons, LessonKey) {
      assert r[k] in multiset(v);
      var j :| 0 <= j < |v| && v[j] == r[k];
      assert v[j] == SortLessons(u[j]);
      SortNumberedCorrect(u[j].lessons, LessonKey);
    }
  }

  // ---------------------------------------------------------------------
  // The extractor as the source runs it
  // ---------------------------------------------------------------------

  /** The look-ahead loop for a module description (lines 298-313). */
  method LookAhead(blocks: seq<Block>, i: nat) returns (d: string)
    requires i < |blocks|
    ensures d == LookAheadDescription(blocks, i)
  {
    var stop := if i + 3 < |blocks| then i + 3 else |blocks|;
    var j := i + 1;
    while j < stop
      invariant i + 1 <= j <= stop
      invariant DescriptionFrom(blocks, j, stop) == LookAheadDescription(blocks, i)
      decreases stop - j
    {
      var t := Text(blocks[j]);
      var final := Contains(ToLower(t), "final examination");
      if blocks[j].tag == P && t != [] && !PrefixMarker(t, "module", true) && !PrefixMarker(t, "lesson", true)
         && !PrefixMarker(t, "module", false) && !PrefixMarker(t, "lesson", false) && !final {
        return t;
      }
      if final {
        return "";
      }
      j := j + 1;
    }
    return "";
  }

  /** The `forEach` over list items that keeps the non-empty ones that are
      not `Lesson N:` lines. */
  method CollectItems(items: seq<string>) returns (kept: seq<string>)
    ensures kept == KeptItems(items)
  {
    kept := [];
    var k := 0;
    while k < |items|
      invariant 0 <= k <= |items|
      invariant kept == KeptItems(items[..k])
    {
      assert items[..k + 1][..k] == items[..k];
      var t := Trim(items[k]);
      if t != [] && !PrefixMarker(t, "lesson", true) {
        assert KeptItem(t);
        kept := kept + [t];
      }
      k := k + 1;
    }
    assert items[..k] == items;
  }

  /** The `forEach` that turns the later segments of a marker block into
      lessons. */
  method CollectExtraLessons(segments: seq<string>) returns (extras: seq<Lesson>)
    ensures extras == ExtraLessons(segments)
  {
    extras := [];
    var k := 0;
    while k < |segments|
      invariant 0 <= k <= |segments|
      invariant extras == ExtraLessons(segments[..k])
    {
      assert segments[..k + 1][..k] == segments[..k];
      var t := Trim(segments[k]);
      assert ExtraLessons(segments[..k + 1]) == ExtraLessons(segments[..k]) + (if t != [] then [Lesson(t, [])] else []);
      if t != [] {
        extras := extras + [Lesson(t, [])];
      }
      k := k + 1;
    }
    assert segments[..k] == segments;
  }

  /** One iteration of the fallback's loop; `stop` is its `break`. */
  method DirectBlock(blocks: seq<Block>, i: nat, startIndex: nat, d: Direct) returns (stop: bool, d': Direct)
    requires i < |blocks|
    ensures var s := DirectStep(blocks, i, startIndex, d);
            if stop then s.None? else s == Some(d')
  {
    var block := blocks[i];
    var text := Text(block);
    var lowerText := ToLower(text);
    stop := false;
    d' := d;
    if text == [] || ObjectivesLine(lowerText) {
    } else if !d.inSection && (Contains(lowerText, "course content") || Contains(lowerText, "syllabus") || Contains(lowerText, "lessons")) {
      d' := d.(inSection := true);
    } else if d.inSection && (Contains(lowerText, "final examination") || Contains(lowerText, "faq")
                              || (IsHeadingIn(block.tag, 1, 3) && i > startIndex + 3 && !Contains(lowerText, "lesson"))) {
      stop := true;
    } else if !d.inSection {
    } else if DirectLessonTitle(block) {
      var lessons := d.lessons;
      if d.lesson.Some? {
        lessons := lessons + [d.lesson.value];
      } else {
        assert lessons + [] == lessons;
      }
      d' := Direct(lessons, Some(Lesson(text, TrimAll(block.nested))), true);
    } else if block.tag == UL && d.lesson.Some? {
      var kept := CollectItems(block.items);
      d' := d.(lesson := Some(d.lesson.value.(items := d.lesson.value.items + kept)));
    } else if block.tag == LI && d.lesson.Some? && !PrefixMarker(text, "lesson", true) {
      d' := d.(lesson := Some(d.lesson.value.(items := d.lesson.value.items + [Trim(block.inner)])));
    }
  }

  /** One iteration of the fallback's loop, stated as a step of `DirectRun`. */
  method DirectAdvance(blocks: seq<Block>, i: nat, startIndex: nat, d: Direct) returns (stop: bool, d': Direct)
    requires i < |blocks|
    ensures DirectRun(blocks, i, startIndex, d)
            == if stop then d else DirectRun(blocks, i + 1, startIndex, d')
  {
    stop, d' := DirectBlock(blocks, i, startIndex, d);
  }

  /** The fallback's loop (lines 414-460). */
  method DirectLoop(blocks: seq<Block>, startIndex: nat) returns (d: Direct)
    ensures d == DirectRun(blocks, startIndex, startIndex, Direct([], None, false))
  {
    d := Direct([], None, false);
    var i := startIndex;
    while i < |blocks|
      invariant startIndex <= i
      invariant DirectRun(blocks, i, startIndex, d) == DirectRun(blocks, startIndex, startIndex, Direct([], None, false))
      decreases |blocks| - i
    {
      var stop, d' := DirectAdvance(blocks, i, startIndex, d);
      if stop {
        return;
      }
      d := d';
      i := i + 1;
    }
  }

  /** `extractLessonsDirectly`. */
  method ExtractLessonsDirectly(blocks: seq<Block>, startIndex: nat, courseTitle: string) returns (modules: seq<Module>)
    ensures modules == LessonsDirectly(blocks, startIndex, courseTitle)
  {
    var d := DirectLoop(blocks, startIndex);
    var lessons := d.lessons;
    if d.lesson.Some? {
      lessons := lessons + [d.lesson.value];
    } else {
      assert lessons + [] == lessons;
    }
    modules := [];
    if |lessons| > 0 {
      modules := [Module(DefaultModuleTitle(courseTitle), "", SortNumbered(lessons, LessonKey))];
    }
  }

  /** A module marker: flush the open lesson and module, open a new module
      with the look-ahead description (lines 285-314). */
  method OpenModule(blocks: seq<Block>, i: nat, b: Builder) returns (b': Builder)
    requires i < |blocks|
    ensures b' == NewModule(blocks, i, b)
  {
    var modules, currentLesson := b.modules, b.lesson;
    if b.current.Some? {
      var m := b.current.value;
      if currentLesson.Some? {
        m := m.(lessons := m.lessons + [currentLesson.value]);
        currentLesson := None;
      }
      modules := modules + [m];
    }
    var description := LookAhead(blocks, i);
    b' := Builder(modules, Some(Module(Text(blocks[i]), description, [])), currentLesson);
  }

  /** A block with `Lesson N:` markers: flush the open lesson, open the first
      segment as a lesson and add the later ones to the module (lines 316-355). */
  method OpenLessons(blocks: seq<Block>, i: nat, courseTitle: string, b: Builder) returns (b': Builder)
    requires i < |blocks|
    ensures b' == NewLessons(blocks, i, courseTitle, b)
  {
    var block := blocks[i];
    var text := Text(block);
    var m := if b.current.Some? then b.current.value else Module(DefaultModuleTitle(courseTitle), "", []);
    if b.lesson.Some? {
      m := m.(lessons := m.lessons + [b.lesson.value]);
    }
    var segments := SplitSegments(text);
    var items := CollectItems(block.nested);
    var lesson := Lesson(if |segments| > 0 && segments[0] != [] then segments[0] else text, items);
    assert lesson == OpenedLesson(block);
    var extras: seq<Lesson> := [];
    if |segments| > 1 {
      extras := CollectExtraLessons(segments[1..]);
    }
    b' := Builder(b.modules, Some(m.(lessons := m.lessons + extras)), Some(lesson));
  }

  /** The ordered tests of the main loop (lines 261-373) that decide what
      it does with block `i`. */
  method ClassifyBlock(blocks: seq<Block>, i: nat, start: nat, b: Builder) returns (role: Role)
    requires i < |blocks|
    ensures role == Classify(blocks, i, start, b)
  {
    var block := blocks[i];
    var text := Text(block);
    if text == [] {
      return Skip;
    }
    var lowerText := ToLower(text);
    if ObjectivesLine(lowerText) || SyllabusWords(lowerText) {
      role := Skip;
    } else if SyllabusStopWords(lowerText) || (IsHeadingIn(block.tag, 1, 3) && i > start + 2) {
      role := Stop;
    } else if IsModuleMarker(text) {
      role := ModuleMarker;
    } else if HasLessonMarker(text) {
      role := LessonMarker;
    } else if block.tag == UL && b.lesson.Some? {
      role := ListItems;
    } else if block.tag == LI && !PrefixMarker(text, "lesson", true) {
      if b.lesson.Some? {
        role := ItemIntoLesson;
      } else if b.current.Some? && |text| > 10 {
        role := ItemAsLesson;
      } else {
        role := Ignored;
      }
    } else if block.tag == P && b.current.Some? && b.current.value.description == []
              && |text| > 20 && !PrefixMarker(text, "module", true) && !PrefixMarker(text, "lesson", true) {
      role := Description;
    } else {
      role := Ignored;
    }
  }

  /** One iteration of the main loop; `stop` is its `break`. */
  method ProcessBlock(blocks: seq<Block>, i: nat, start: nat, courseTitle: string, b: Builder) returns (stop: bool, b': Builder)
    requires i < |blocks|
    ensures var s := Step(blocks, i, start, courseTitle, b);
            if stop then s.None? else s == Some(b')
    ensures Run(blocks, i, start, courseTitle, b)
            == if stop then b else Run(blocks, i + 1, start, courseTitle, b')
  {
    var block := blocks[i];
    var role := ClassifyBlock(blocks, i, start, b);
    stop := false;
    b' := b;
    match role
    case Stop =>
      stop := true;
    case ModuleMarker =>
      b' := OpenModule(blocks, i, b);
    case LessonMarker =>
      b' := OpenLessons(blocks, i, courseTitle, b);
    case ListItems =>
      var kept := CollectItems(block.items);
      b' := b.(lesson := Some(b.lesson.value.(items := b.lesson.value.items + kept)));
    case ItemIntoLesson =>
      b' := b.(lesson := Some(b.lesson.value.(items := b.lesson.value.items + [Trim(block.inner)])));
    case ItemAsLesson =>
      var n := |b.current.value.lessons| + 1;
      b' := b.(lesson := Some(Lesson(SynthesizedLessonTitle(n, Text(block)), [Trim(block.inner)])));
    case Description =>
      b' := b.(current := Some(b.current.value.(description := Text(block))));
    case Skip =>
    case Ignored =>
  }

  /** The flush after the main loop (lines 376-388). */
  method FinishBuilder(b: Builder, courseTitle: string) returns (modules: seq<Module>)
    ensures modules == Finish(b, courseTitle)
  {
    var currentModule := b.current;
    if b.lesson.Some? {
      if currentModule.Some? {
        currentModule := Some(currentModule.value.(lessons := currentModule.value.lessons + [b.lesson.value]));
      } else {
        currentModule := Some(Module(DefaultModuleTitle(courseTitle), "", [b.lesson.value]));
      }
    }
    modules := b.modules;
    if currentModule.Some? {
      modules := modules + [currentModule.value];
    }
  }

  /** The `forEach` that sorts the lessons of every module (lines 394-398). */
  method SortEveryModule(unsorted: seq<Module>) returns (modules: seq<Module>)
    ensures modules == SortAllLessons(unsorted)
  {
    modules := unsorted;
    var k := 0;
    while k < |modules|
      invariant 0 <= k <= |modules| == |unsorted|
      invariant forall j :: 0 <= j < k ==> modules[j] == SortLessons(unsorted[j])
      invariant forall j :: k <= j < |modules| ==> modules[j] == unsorted[j]
    {
      var m := modules[k];
      if |m.lessons| > 0 {
        m := m.(lessons := SortNumbered(m.lessons, LessonKey));
      }
      assert m == SortLessons(unsorted[k]);
      modules := modules[k := m];
      k := k + 1;
    }
  }

  /** The two scans that place the syllabus window (lines 223-259). */
  method LocateSyllabus(blocks: seq<Block>) returns (start: nat, found: bool)
    ensures start == SyllabusStart(blocks)
    ensures found == SyllabusHeadingIndex(blocks).Some?
  {
    var objectivesEnd: Option<nat> := None;
    var heading := Scan(blocks, 0, ObjectivesHeading);
    if heading.Some? {
      objectivesEnd := Scan(blocks, heading.value + 1, ObjectivesEndMark);
    }
    var from := if objectivesEnd.Some? then objectivesEnd.value else 0;
    var syllabus := Scan(blocks, from, SyllabusHeading);
    start := if syllabus.Some? then syllabus.value else from;
    found := syllabus.Some?;
  }

  /** The main loop (lines 261-374). */
  method RunBuilder(blocks: seq<Block>, start: nat, courseTitle: string) returns (b: Builder)
    ensures b == Run(blocks, start, start, courseTitle, Empty)
  {
    b := Empty;
    var i := start;
    while i < |blocks|
      invariant start <= i
      invariant Run(blocks, i, start, courseTitle, b) == Run(blocks, start, start, courseTitle, Empty)
      decreases |blocks| - i
    {
      var stop, b' := ProcessBlock(blocks, i, start, courseTitle, b);
      if stop {
        return;
      }
      b := b';
      i := i + 1;
    }
    RunPastEnd(blocks, i, start, courseTitle, b);
  }

  lemma RunPastEnd(blocks: seq<Block>, i: nat, start: nat, courseTitle: string, b: Builder)
    requires i >= |blocks|
    ensures Run(blocks, i, start, courseTitle, b) == b
  {
  }

  /** `extractAllSyllabusContent`. */
  method ExtractAllSyllabusContent(blocks: seq<Block>, courseTitle: string) returns (result: seq<Module>)
    ensures result == SyllabusModules(blocks, courseTitle)
  {
    var start, found := LocateSyllabus(blocks);
    var b := RunBuilder(blocks, start, courseTitle);
    var modules := FinishBuilder(b, courseTitle);
    if |modules| == 0 && found {
      modules := ExtractLessonsDirectly(blocks, start, courseTitle);
    }
    modules := SortEveryModule(modules);
    result := SortNumbered(modules, ModuleKey);
  }
}
