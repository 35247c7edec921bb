# docx-processor, modelled in Dafny

This project models `src/lib/docx-processor.js`. That file turns a Word document into the HTML
fragments of three page generators: course, blog and glossary. The converter
hands the file a flat list of block elements. The file's extractors read those blocks
into structured records, and its generators turn the records into
templated HTML.

The model replaces each DOM element with a value:

- `Blocks.Block` is a top-level block, with its trimmed text, inner and outer HTML, list items and `alt`.
- `Blog.Element` is a block with the size of its subtree, for the blog walker, which visits every element in document order.
- `Glossary.Row` is a table row, as a list of cells.

Every regular expression becomes a small predicate over strings (`Patterns`), and `trim`
uses JavaScript's full white-space class (`Strings.IsSpace`). The global `courseData`
record is a `Course.CourseData` value passed in and returned. Each `for`, `while` and
`forEach` loop of the source, and the `exec` loop of `splitLessonSegments`, is
a Dafny `method` with its `while` loop and its invariants. Each method is proved equal to a
function that states the same computation as a whole, and the properties the source
relies on are proved about those functions as lemmas.

The modules follow the file:

- `Strings` covers trimming, ASCII case folding, substrings, digits and tag stripping.
- `Blocks` covers the block record and first-match scans.
- `Patterns` covers `cleanFAQText`, `splitLessonSegments`, `getLessonNumber` and `getModuleNumber`.
- `Ordinal` covers `sortNumberedEntries`.
- `Course` covers `extractOverview`, `extractCourseObjectives`, `extractCourseContent` and `processCourseFile`.
- `Syllabus` covers `extractAllSyllabusContent` and `extractLessonsDirectly`.
- `Faq` covers `extractFAQContent` and `extractBlogFAQContent`.
- `Blog` covers `extractBlogContent`.
- `Glossary` covers `extractGlossaryData` and `generateGlossaryCode`.
- `Escape` covers `escapeHtml` and `escapeAttr`.
- `CourseMarkup` covers `generateCourseObjectivesCode` and `generateSyllabusCode`.
- `FaqMarkup` covers `generateFAQCode` and `generateBlogFAQCode`.
- `BlogMarkup` covers `generateBlogCode`.

Each generator is written over a record of its literal text pieces, such as `CourseMarkup.SyllabusTemplate`,
and is instantiated with the source's exact strings, such as `CourseMarkup.SyllabusPage`. The lemmas hold
for every choice of pieces. The facts they need about the literals themselves are proved once,
in `SyllabusPageDistinguished`, `FaqMarkup.PagesDistinguished` and `Escape.RefsSound`.

In `extractFAQContent` a numbered question keeps the whole block text as its question, and its answer is seeded with the trimmed text after the first `?` (lines 523-527).

The branch at lines 379-385 of `extractAllSyllabusContent` can never run: a lesson is only ever open while a module is open. `Syllabus.FinalFlushHasModule` proves this.

## Model

| member | source | states |
|---|---|---|
| Strings.Trim | src/lib/docx-processor.js:12 | `trim` leaves no white space at either end, never lengthens, and leaves an already trimmed text unchanged |
| Strings.TrimInfix | src/lib/docx-processor.js:12 | the trimmed text is a contiguous piece of the input, with only white space before and after it |
| Strings.ToLower | src/lib/docx-processor.js:122 | lower-casing keeps the length and maps each character by itself (ASCII folding) |
| Strings.ParseNatToString | src/lib/docx-processor.js:610-611 | the decimal numeral that `${index + 1}` prints reads back as the same number |
| Strings.StripTagsLeavesNoTag | src/lib/docx-processor.js:853 | after `replace(/<[^>]*>/g, '')` no `<` is followed by a later `>` |
| Strings.StripTagsWithoutClose | src/lib/docx-processor.js:853 | a text with no `>` passes through tag stripping unchanged |
| Blocks.FindFirst | src/lib/docx-processor.js:127-131 | the index found satisfies the test and no earlier index from the start does; none means no index does |
| Blocks.Scan | src/lib/docx-processor.js:151-162 | the scan loop with `break` returns exactly the first match from `from` |
| Blocks.FirstOfAll | src/lib/docx-processor.js:121-124 | the `forEach` that records only the first hit (`=== -1` guard) returns the first match |
| Patterns.NumberAfter | src/lib/docx-processor.js:27-37 | the number returned is that of the leftmost `keyword\s*(\d+)` match; none when there is no match at all |
| Patterns.SynthesizedTitleNumber | src/lib/docx-processor.js:364 | a title made up as `Lesson n: ...` sorts by lesson number `n` |
| Patterns.QuestionRemainder | src/lib/docx-processor.js:524-527 | the regex matches exactly when the text has a `digits. ` prefix and the text after it has a `?` and no line end; the remainder is then everything after the first such `?` |
| Patterns.QuestionRemainderOf | src/lib/docx-processor.js:524-527 | a one-line question `n. q?a` with no `?` in `q` leaves exactly `a` |
| Patterns.NextMarker | src/lib/docx-processor.js:18-22 | the next `lesson N:` marker at or after `i`, with no marker in between |
| Patterns.SegmentsFromCount | src/lib/docx-processor.js:18-23 | from a marker on, there is one segment per marker, and every segment is non-empty and trimmed |
| Patterns.SplitSegments | src/lib/docx-processor.js:16-25 | the `exec` loop pushes, trimmed, each piece from one marker to the next or the end, which is `SplitLessonSegments` |
| Patterns.SplitLessonSegmentsCount | src/lib/docx-processor.js:16-25 | `splitLessonSegments` returns one non-empty trimmed segment per marker, and some segment exactly when the text has a marker |
| Patterns.NonEmptyTrims | src/lib/docx-processor.js:860-862 | `map(trim).filter(...)` keeps only non-empty trimmed items, never more than it was given |
| Patterns.NonEmptyTrimsAt | src/lib/docx-processor.js:860-862 | an item anywhere in the list appears, trimmed, between what is kept before and after it, exactly when its trimmed text is non-empty |
| Patterns.NonEmptyTrimsAppend | src/lib/docx-processor.js:860-862 | the filter keeps order: the result for `a + b` is that of `a` followed by that of `b`, and one item gives its trimmed text exactly when that is non-empty |
| Patterns.CollapseSpaces | src/lib/docx-processor.js:12 | `replace(/\s+/g, ' ')` leaves no two white-space characters in a row, and every white space is a blank; empty exactly when the input is empty |
| Patterns.CleanFaqTextNormalized | src/lib/docx-processor.js:7-14 | `cleanFAQText` output has no white space at either end, no run of white space, and only blanks as white space |
| Patterns.CleanFaqTextFixesNormalized | src/lib/docx-processor.js:7-14 | a normalized text without a number or `Q:` prefix passes through `cleanFAQText` unchanged |
| Ordinal.Insert | src/lib/docx-processor.js:48-55 | inserting into the sorted list adds exactly the one entry |
| Ordinal.InsertSorted | src/lib/docx-processor.js:48-55 | inserting into a list sorted by the comparator keeps it sorted |
| Ordinal.InsertStable | src/lib/docx-processor.js:48-55 | the new entry lands after every earlier entry with the same key |
| Ordinal.SortNumberedPermutes | src/lib/docx-processor.js:39-56 | the sort returns a permutation of its input |
| Ordinal.SortNumberedSorted | src/lib/docx-processor.js:48-55 | numbered entries come first in ascending order, and unnumbered ones after them |
| Ordinal.SortNumberedStable | src/lib/docx-processor.js:42-55 | entries with the same number, and the unnumbered entries, keep their input order (the `_originalIndex` tie-break) |
| Ordinal.SortNumberedCorrect | src/lib/docx-processor.js:39-56 | the sort is a permutation, is ordered, and is stable for every key |
| Ordinal.UnnumberedTail | src/lib/docx-processor.js:49-53 | the output is a run of numbered entries followed by exactly the unnumbered entries in input order |
| Ordinal.SortSortedIsIdentity | src/lib/docx-processor.js:39-56 | an already ordered list comes back unchanged |
| Ordinal.SortTwice | src/lib/docx-processor.js:39-56 | sorting twice is sorting once |
| Ordinal.SumSorted | src/lib/docx-processor.js:39-56 | the sort keeps any per-entry total, for example the number of lessons |
| Syllabus.ObjectivesEndIndex | src/lib/docx-processor.js:223-239 | an objectives end is a `syllabus`/`1.3`/`course content` block lying after an objectives heading |
| Syllabus.SyllabusStart | src/lib/docx-processor.js:241-259 | the start lies in the document, no syllabus heading lies between the search start and it, and when a syllabus heading exists the start is that heading |
| Syllabus.Classify | src/lib/docx-processor.js:261-373 | the chosen role fits the builder: list items only with an open lesson, a bare item becomes a lesson only inside a module with no open lesson, and a description only with an open module |
| Syllabus.KeptItems | src/lib/docx-processor.js:330-336 | kept list items are non-empty and none starts with `Lesson N:` |
| Syllabus.KeptItemsAt | src/lib/docx-processor.js:330-336 | an item anywhere in the list is kept, trimmed, between the items kept before and after it, exactly when it is non-empty and not a `Lesson N:` line |
| Syllabus.KeptItemsAppend | src/lib/docx-processor.js:330-336 | the kept items keep order: those of `a + b` are those of `a` followed by those of `b`, and one item is kept, trimmed, exactly when it is non-empty and not a `Lesson N:` line |
| Syllabus.ExtraLessons | src/lib/docx-processor.js:339-348 | the later segments of one block give at most one lesson each |
| Syllabus.LessonsDirectly | src/lib/docx-processor.js:403-472 | the fallback returns at most one module, titled `<course> Content` with no description, whose lessons are non-empty and sorted by lesson number |
| Syllabus.ApplyConsistent | src/lib/docx-processor.js:280-373 | every branch of the loop keeps "a lesson is open only inside an open module" |
| Syllabus.StepConsistent | src/lib/docx-processor.js:261-373 | one iteration keeps that invariant |
| Syllabus.RunConsistent | src/lib/docx-processor.js:261-374 | the whole loop keeps that invariant |
| Syllabus.FinalFlushHasModule | src/lib/docx-processor.js:376-386 | after the loop an open lesson always has an open module, so the `else` at lines 379-385 is dead |
| Syllabus.ModuleMarkerAccounting | src/lib/docx-processor.js:280-293 | a module marker flushes the open lesson and module without losing a lesson, and opens exactly one module |
| Syllabus.ExtraLessonsOfSolid | src/lib/docx-processor.js:339-348 | every non-empty trimmed segment becomes exactly one lesson |
| Syllabus.ExtraLessonsCount | src/lib/docx-processor.js:322-348 | a block with k markers has k segments, and all but the first become lessons |
| Syllabus.LessonMarkerAccounting | src/lib/docx-processor.js:312-349 | a block with k `lesson N:` markers adds exactly k lessons, and opens the implicit module only when none is open |
| Syllabus.ApplyAccounting | src/lib/docx-processor.js:280-373 | each branch adds exactly the lessons and modules it opens to the builder's totals |
| Syllabus.StepAccounting | src/lib/docx-processor.js:261-373 | one iteration adds exactly the lessons and modules its block opens |
| Syllabus.RunAccounting | src/lib/docx-processor.js:261-374 | the whole loop adds exactly the lessons and modules its steps open up to the `break` (`OpenedFrom`, `ModulesOpenedFrom`), and loses none |
| Syllabus.FinishAccounting | src/lib/docx-processor.js:376-388 | the final flush outputs every open lesson and module exactly once |
| Syllabus.SortingKeepsLessons | src/lib/docx-processor.js:394-400 | sorting lessons and modules keeps the total number of lessons |
| Syllabus.SyllabusOrdered | src/lib/docx-processor.js:394-400 | the modules come out ordered by module number, and each module's lessons by lesson number |
| Syllabus.LookAhead | src/lib/docx-processor.js:295-310 | the look-ahead loop picks the description defined by the next two blocks |
| Syllabus.CollectItems | src/lib/docx-processor.js:330-336 | the item loop keeps exactly the items `KeptItems` keeps |
| Syllabus.CollectExtraLessons | src/lib/docx-processor.js:340-347 | the segment loop builds exactly `ExtraLessons` |
| Syllabus.DirectBlock | src/lib/docx-processor.js:414-461 | one fallback iteration is the fallback step, with `break` as the stop |
| Syllabus.DirectAdvance | src/lib/docx-processor.js:414-461 | one fallback iteration advances the fallback run |
| Syllabus.DirectLoop | src/lib/docx-processor.js:414-462 | the fallback loop computes the fallback run from `startIndex` |
| Syllabus.ExtractLessonsDirectly | src/lib/docx-processor.js:403-472 | `extractLessonsDirectly` returns `LessonsDirectly`, a single sorted default module or nothing |
| Syllabus.OpenModule | src/lib/docx-processor.js:280-311 | the module-marker branch flushes, opens the module and takes the look-ahead description |
| Syllabus.OpenLessons | src/lib/docx-processor.js:312-349 | the lesson-marker branch opens the first segment's lesson and pushes the later ones |
| Syllabus.ClassifyBlock | src/lib/docx-processor.js:261-373 | the ordered tests of the loop pick the role `Classify` gives |
| Syllabus.ProcessBlock | src/lib/docx-processor.js:261-373 | one iteration is one step of the state machine, and `break` stops the run |
| Syllabus.FinishBuilder | src/lib/docx-processor.js:376-388 | the flush after the loop returns the builder's modules with the open ones appended |
| Syllabus.SortEveryModule | src/lib/docx-processor.js:394-398 | the `forEach` replaces every module that has lessons by the same module with its lessons sorted, and leaves the others alone |
| Syllabus.LocateSyllabus | src/lib/docx-processor.js:223-259 | the two scans return the syllabus start, and whether a syllabus heading was found |
| Syllabus.RunBuilder | src/lib/docx-processor.js:261-374 | the main loop runs the state machine from the syllabus start |
| Syllabus.SyllabusKeepsEveryLesson | src/lib/docx-processor.js:217-401 | unless the fallback runs, the result holds exactly the lessons and the modules the blocks open from the syllabus heading to the `break` |
| Syllabus.ExtractAllSyllabusContent | src/lib/docx-processor.js:217-401 | the result is `SyllabusModules`, which is ordered (`SyllabusOrdered`) and, without the fallback, keeps every opened lesson and module exactly once (`SyllabusKeepsEveryLesson`) |
| Faq.FaqEndFrom | src/lib/docx-processor.js:488-495 | the end is the first `For Online Course Page:` or late non-FAQ heading, else the number of blocks |
| Faq.FaqEnd | src/lib/docx-processor.js:487-496 | the FAQ window ends after its heading and inside the document |
| Faq.SeededAnswer | src/lib/docx-processor.js:524-527 | the seeded answer is the trimmed remainder after the first `?` when the regex matches, and empty otherwise |
| Faq.SeededAnswerOf | src/lib/docx-processor.js:524-527 | a one-line question `n. q?a` with no `?` in `q` seeds the answer `a`, trimmed |
| Faq.CleanedAt | src/lib/docx-processor.js:518-521 | pair k of the output is raw pair k with `cleanFAQText` applied |
| Faq.EmitGood | src/lib/docx-processor.js:517-522 | a flush pushes a pair only when question and answer are both non-empty, and keeps the pairs in document order |
| Faq.CollectGood | src/lib/docx-processor.js:532-555 | an answer block, with its look-ahead flush and reset, keeps every emitted pair well-formed and in order |
| Faq.StepGood | src/lib/docx-processor.js:502-557 | every iteration keeps the reader well-formed |
| Faq.RunGood | src/lib/docx-processor.js:502-557 | the whole reader loop keeps it well-formed |
| Faq.RawPairsWellFormed | src/lib/docx-processor.js:498-564 | every pair comes from a question block inside the window, both parts are non-empty, and question indices strictly increase (document order, at most one pair per question block) |
| Faq.PairsBounded | src/lib/docx-processor.js:476-564 | no FAQ heading gives no pairs, and there are never more pairs than blocks in the window |
| Faq.CourseFaqsClean | src/lib/docx-processor.js:518-563 | every course pair has a normalized question and answer |
| Faq.BlogFaqsAnswered | src/lib/docx-processor.js:998-1044 | the blog extractor keeps each raw answer, which is non-empty |
| Faq.FindFaqEnd | src/lib/docx-processor.js:487-496 | the end-finding loop computes `FaqEnd` |
| Faq.ReadBlock | src/lib/docx-processor.js:503-556 | one iteration of the reader's loop is one reader step |
| Faq.CollectRawPairs | src/lib/docx-processor.js:498-564 | the reader's loop and final flush return the raw pairs |
| Faq.CleanPairs | src/lib/docx-processor.js:518-521 | the pushes apply `cleanFAQText` pairwise, to the answer only in the course variant |
| Faq.ExtractFaqContent | src/lib/docx-processor.js:474-565 | `extractFAQContent` stores the cleaned pairs, which `CourseFaqsClean` and `RawPairsWellFormed` describe |
| Faq.ExtractBlogFaqContent | src/lib/docx-processor.js:949-1047 | `extractBlogFAQContent` returns the pairs with cleaned questions and raw answers |
| Course.OverviewEnd | src/lib/docx-processor.js:127-140 | the end is the first objectives mark after the start; only when there is none, the first syllabus mark; else the end of the document |
| Course.OverviewIsWindow | src/lib/docx-processor.js:119-145 | the overview is the joined outer HTML of the blocks strictly between start and end, its single section repeats it, and no other field changes |
| Course.ExtractOverview | src/lib/docx-processor.js:119-145 | `extractOverview` updates the record as `WithOverview` does |
| Course.ObjectivesEnd | src/lib/docx-processor.js:166-182 | the end is the first stop mark after the start, else the end of the document |
| Course.ObjStepKeeps | src/lib/docx-processor.js:185-210 | one block only appends non-empty trimmed items and never replaces an intro already set |
| Course.ObjRunKeeps | src/lib/docx-processor.js:185-210 | the whole loop keeps this |
| Course.OpeningParagraphIsIntro | src/lib/docx-processor.js:183-196 | the slice includes its start block, so an opening paragraph of more than 20 characters becomes the intro |
| Course.ObjRunIntro | src/lib/docx-processor.js:193-196 | an intro once set is never replaced |
| Course.ObjectivesSolid | src/lib/docx-processor.js:147-211 | the objectives list only grows, by non-empty trimmed items |
| Course.CollectObjectiveItems | src/lib/docx-processor.js:199-203 | the `li` loop keeps the non-empty trimmed items |
| Course.ObjectivesBlock | src/lib/docx-processor.js:186-209 | one iteration over the window is one objectives step |
| Course.ExtractCourseObjectives | src/lib/docx-processor.js:147-211 | `extractCourseObjectives` updates the record as `WithObjectives` does |
| Course.ProcessedCourseFields | src/lib/docx-processor.js:69-115 | after processing, the file is marked processed, the title defaults to `Course Name`, the syllabus and FAQ fields hold the extractors' results, the objectives list is made of non-empty trimmed items, and the overview sections are empty or the one overview section |
| Course.ExtractCourseContent | src/lib/docx-processor.js:103-115 | the four extractors run in order and the file is marked processed |
| Course.ProcessCourse | src/lib/docx-processor.js:82-92 | a reset record, with the course title set, goes through `extractCourseContent` |
| Blog.MetaBound | src/lib/docx-processor.js:758-767 | the cut is at the first element starting with a metadata marker, else at the end |
| Blog.AfterTruncation | src/lib/docx-processor.js:755-783 | an element survives exactly when it is before the cut and in no link or alt-text subtree |
| Blog.RemoveSubtree | src/lib/docx-processor.js:797 | `remove()` takes out exactly the element's subtree |
| Blog.FirstAlive | src/lib/docx-processor.js:792-801 | `querySelector` finds the first live element that passes the test |
| Blog.BeforeDot | src/lib/docx-processor.js:815 | `split('.')[0]` is the prefix before the first `.` |
| Blog.ChooseTitle | src/lib/docx-processor.js:792-824 | when the chosen title's element is to be removed, that element is live and the title is its text |
| Blog.TitleNotFaq | src/lib/docx-processor.js:793-824 | the title never mentions FAQ; it is empty, longer than 5 characters, or the text of an `h1` |
| Blog.EmitOk | src/lib/docx-processor.js:843-876 | each unit the walker emits is well-formed: paragraphs keep text after tag stripping, lists are non-empty, the n-th image carries `[Image n]` |
| Blog.WalkFromOk | src/lib/docx-processor.js:826-878 | the walk keeps every unit well-formed, and `imageCount` equal to the number of image units |
| Blog.BlogContentOk | src/lib/docx-processor.js:746-881 | for either walker, the blog data's units are all well-formed (the `n`-th image carries `[Image n]` and some alt text) and `imageCount` counts its image units |
| Blog.WalkImages | src/lib/docx-processor.js:826-878 | with images kept, the image units a walk adds from an element on are exactly those of the `<img>` elements among the live elements it visits before the stop, in order, and `imageCount` grows by their number |
| Blog.UnitsForAre | src/lib/docx-processor.js:870-876 | the image units added while visiting a run of elements are its `<img>` elements, in order, numbered on from the `n` images already counted |
| Blog.BlogImages | src/lib/docx-processor.js:870-876 | with images kept, every live `<img>` before the stop becomes one image unit in document order, the `k`-th with `[Image k]` and its `alt` or `Blog image k`; `imageCount` is their number |
| Blog.WrittenWalkHasNoImages | src/lib/docx-processor.js:829-831 | the walker as written never emits an image unit |
| Blog.WrittenBlogDropsImages | src/lib/docx-processor.js:829-876 | `extractBlogContent` as written returns no image unit and an image count of 0 |
| Blog.BlogKeepsImage | src/lib/docx-processor.js:870-876 | with the corrected walker a lone image becomes `[Image 1]`; as written, nothing is emitted |
| Blog.Truncate | src/lib/docx-processor.js:755-783 | the truncation loop and removal leave exactly the live elements |
| Blog.PickTitle | src/lib/docx-processor.js:792-824 | the three title fallbacks in order pick `ChooseTitle` |
| Blog.VisitElement | src/lib/docx-processor.js:829-877 | one walker step, with `break` as the stop |
| Blog.Walker | src/lib/docx-processor.js:826-878 | the walker loop computes the walk over the live elements |
| Blog.ExtractBlogContent | src/lib/docx-processor.js:746-881 | `extractBlogContent`, with images kept, returns `BlogContent` |
| Glossary.Picks | src/lib/docx-processor.js:1125-1134 | each row gives its entry, pointwise |
| Glossary.SomesIndexes | src/lib/docx-processor.js:1130-1131 | the kept entries are exactly the rows that give one, in row order |
| Glossary.GlossaryDataRows | src/lib/docx-processor.js:1117-1137 | with no table there are no entries; otherwise row 0 is skipped and every row of two cells with a non-empty term and definition gives exactly one entry, in order |
| Glossary.PickSolid | src/lib/docx-processor.js:1127-1131 | every entry has a non-empty trimmed term and definition |
| Glossary.ExtractGlossaryData | src/lib/docx-processor.js:1117-1137 | the row loop returns `GlossaryData` |
| Glossary.Key | src/lib/docx-processor.js:1144 | `charAt(0).toUpperCase()` is at most one character |
| Glossary.FiledMembers | src/lib/docx-processor.js:1141-1147 | an entry is in a letter's bucket exactly when its key is that letter |
| Glossary.FiledOrder | src/lib/docx-processor.js:1146 | a bucket lists its entries in insertion order |
| Glossary.BucketMember | src/lib/docx-processor.js:1141-1147 | every entry lands in the bucket of its upper-cased first character |
| Glossary.GroupsSnoc | src/lib/docx-processor.js:1145-1146 | pushing one entry to its key's list keeps the grouping exact |
| Glossary.GroupByLetter | src/lib/docx-processor.js:1140-1147 | `groupedData` has a key exactly for the non-empty buckets, and each key holds its bucket |
| Glossary.ButtonAt | src/lib/docx-processor.js:1152-1154 | button i is the button of letter i |
| Glossary.SectionAt | src/lib/docx-processor.js:1152-1165 | section i is the section of letter i with that letter's bucket |
| Glossary.FirstLetter | src/lib/docx-processor.js:1152-1153 | the letter is `A` only for the first index |
| Glossary.OnlyFirstButtonActive | src/lib/docx-processor.js:1154 | there are 26 buttons and only the first is `active` |
| Glossary.OnlyFirstSectionDisplayed | src/lib/docx-processor.js:1156 | there are 26 sections and only the first is `display:block` |
| Glossary.SectionOnPage | src/lib/docx-processor.js:1196-1198 | what a section holds, the page holds |
| Glossary.ItemInSection | src/lib/docx-processor.js:1158-1161 | every entry of a bucket is written in its letter's section |
| Glossary.EntryOnPage | src/lib/docx-processor.js:1141-1161 | every entry whose term starts with a letter A-Z appears on the page |
| Glossary.EmptyLetterShown | src/lib/docx-processor.js:1162-1164 | a letter with no terms shows `No terms found` |
| Glossary.LetteredBucket | src/lib/docx-processor.js:1144-1158 | dropping the entries not keyed A-Z changes no letter's bucket |
| Glossary.LetteredSections | src/lib/docx-processor.js:1152-1165 | dropping them changes no section |
| Glossary.UnletteredDropped | src/lib/docx-processor.js:1152-1166 | the page is the same without the terms whose first character is not A-Z, so they never appear |
| Glossary.ItemsLoop | src/lib/docx-processor.js:1159-1161 | the `forEach` over a bucket writes its items in order |
| Glossary.SectionCode | src/lib/docx-processor.js:1156-1165 | one letter's `div`, with its items or the placeholder |
| Glossary.LetterCode | src/lib/docx-processor.js:1153-1165 | the button and section of letter i, read from `groupedData` |
| Glossary.LetterLoop | src/lib/docx-processor.js:1152-1166 | the letter loop writes the 26 buttons and the 26 sections in order |
| Glossary.GenerateGlossaryCode | src/lib/docx-processor.js:1139-1203 | `generateGlossaryCode` returns the page the lemmas above describe |
| Escape.RefsSound | src/lib/docx-processor.js:893 | the five references contain no raw markup character, start with `&`, and differ in their second character |
| Escape.HtmlChainAppend | src/lib/docx-processor.js:893 | the `escapeHtml` chain of global replaces works piece by piece |
| Escape.AttrChainAppend | src/lib/docx-processor.js:888 | the same holds for the `escapeAttr` chain |
| Escape.ChainChar | src/lib/docx-processor.js:888-893 | each single character goes through either chain to its own reference, and `escapeAttr` keeps `'` |
| Escape.HtmlChainIsEach | src/lib/docx-processor.js:893 | the `escapeHtml` chain equals replacing each character by its reference, since `&` goes first |
| Escape.AttrChainIsEach | src/lib/docx-processor.js:888 | the `escapeAttr` chain equals the same per-character replacement, apart from `'` |
| Escape.EachEscapedSafe | src/lib/docx-processor.js:886-894 | per-character escaping leaves no raw `<`, `>` or `"`, nor `'` in the HTML variant |
| Escape.EscapeHtmlIsEach | src/lib/docx-processor.js:891-894 | `escapeHtml` maps each character to its own reference |
| Escape.EscapeAttrIsEach | src/lib/docx-processor.js:886-889 | `escapeAttr` maps each character to its own reference, except `'` |
| Escape.EscapeHtmlSafe | src/lib/docx-processor.js:891-894 | `escapeHtml` output contains no raw `<`, `>`, `"` or `'` |
| Escape.EscapeAttrSafe | src/lib/docx-processor.js:886-889 | `escapeAttr` output contains no raw `<`, `>` or `"` |
| Escape.UnescapeEach | src/lib/docx-processor.js:886-894 | decoding the references undoes per-character escaping |
| Escape.EscapeHtmlRoundTrip | src/lib/docx-processor.js:891-894 | decoding `escapeHtml` output gives back the input |
| Escape.EscapeAttrRoundTrip | src/lib/docx-processor.js:886-889 | decoding `escapeAttr` output gives back the input |
| CourseMarkup.ObjectiveShown | src/lib/docx-processor.js:594 | every objective appears as an `<li>` |
| CourseMarkup.NoObjectivesShown | src/lib/docx-processor.js:596 | an empty list shows the `No course objectives found` item |
| CourseMarkup.IntroShown | src/lib/docx-processor.js:598-599 | the document's intro is shown when there is one, and otherwise the default sentence |
| CourseMarkup.SyllabusPlaceholder | src/lib/docx-processor.js:605-607 | for any pieces, the output is the placeholder exactly when there are no modules |
| CourseMarkup.CourseSyllabusPlaceholder | src/lib/docx-processor.js:605-652 | `generateSyllabusCode` returns `<p>No syllabus content found.</p>` exactly when there are no modules |
| CourseMarkup.IdsDistinct | src/lib/docx-processor.js:610-611 | two cards never share a `collapse` id or a `heading` id |
| CourseMarkup.CardShown | src/lib/docx-processor.js:609-650 | every module has its card in the accordion |
| CourseMarkup.ModuleTitleShown | src/lib/docx-processor.js:618 | every module title is shown |
| CourseMarkup.DescriptionShown | src/lib/docx-processor.js:627-629 | a non-empty description is shown |
| CourseMarkup.LessonShown | src/lib/docx-processor.js:633-643 | every lesson is shown inside its module's list |
| CourseMarkup.ItemShown | src/lib/docx-processor.js:637-639 | every lesson item is shown as a nested `<li>` |
| CourseMarkup.ItemsLoop | src/lib/docx-processor.js:637-639 | the item `forEach` writes one line per item, in order |
| CourseMarkup.LessonMarkup | src/lib/docx-processor.js:634-642 | one lesson's `<li>`, with its nested list only when it has items |
| CourseMarkup.LessonsLoop | src/lib/docx-processor.js:633-643 | the lesson `forEach` writes the lessons in order |
| CourseMarkup.ModuleCode | src/lib/docx-processor.js:610-649 | the body of the module `forEach` writes that module's card |
| CourseMarkup.SyllabusLoop | src/lib/docx-processor.js:602-653 | the generator, for any text pieces, returns `SyllabusCode` |
| CourseMarkup.GenerateSyllabusCode | src/lib/docx-processor.js:602-653 | `generateSyllabusCode` with the source's literals |
| FaqMarkup.ColumnsSplit | src/lib/docx-processor.js:660-662 | the two columns are consecutive pieces of the list; the first holds ceil(n/2) pairs and the second the rest |
| FaqMarkup.FaqPlaceholder | src/lib/docx-processor.js:656-658 | the output is the placeholder comment exactly when there are no pairs, and is never empty |
| FaqMarkup.GeneratorsPlaceholder | src/lib/docx-processor.js:1050 | both FAQ generators return the comment exactly for zero pairs, and never an empty string |
| FaqMarkup.EntryInColumn | src/lib/docx-processor.js:667-672 | every pair of a column is written in that column |
| FaqMarkup.ColumnInCode | src/lib/docx-processor.js:664-685 | what either column holds, the output holds |
| FaqMarkup.EntryPlaced | src/lib/docx-processor.js:660-682 | pair k is in column 1 when k < ceil(n/2) and in column 2 otherwise, and in the output either way |
| FaqMarkup.CoursePairShown | src/lib/docx-processor.js:667-681 | every course pair appears with its question and its answer |
| FaqMarkup.BlogPairPrinted | src/lib/docx-processor.js:1066-1073 | a blog pair is printed exactly when its cleaned question and its answer without the `A:` prefix are both non-empty; the printed question is escaped and decodes back, and the answer is trimmed |
| FaqMarkup.BlogPairSkipped | src/lib/docx-processor.js:1068 | a skipped blog pair writes nothing |
| FaqMarkup.ColumnLoop | src/lib/docx-processor.js:666-673 | one column's `forEach` writes its pairs in order |
| FaqMarkup.FaqLoop | src/lib/docx-processor.js:655-686 | the generator, for any text pieces, returns `FaqCode` |
| FaqMarkup.GenerateFAQCode | src/lib/docx-processor.js:655-686 | `generateFAQCode` with the course literals |
| FaqMarkup.GenerateBlogFAQCode | src/lib/docx-processor.js:1049-1093 | `generateBlogFAQCode` with the blog literals |
| BlogMarkup.UnitOnPage | src/lib/docx-processor.js:908-943 | what a unit's markup holds, the page holds |
| BlogMarkup.TitleShown | src/lib/docx-processor.js:896-898 | a non-empty title is written escaped in the `h1`, safe and decodable back to the title |
| BlogMarkup.FeaturedSafe | src/lib/docx-processor.js:900-904 | the featured image's attributes contain no raw `"` or `<` |
| BlogMarkup.ImageShown | src/lib/docx-processor.js:936-940 | the k-th image unit uses `imageUrls[k]` when that is non-empty, and `#` once the list is exhausted |
| BlogMarkup.NumberedImageShown | src/lib/docx-processor.js:936-940 | the image unit with placeholder `[Image n]` is written with URL number n-1 |
| BlogMarkup.ParagraphShown | src/lib/docx-processor.js:918-923 | a paragraph is written exactly when it has text after tag stripping, and then its trimmed content is shown |
| BlogMarkup.WalkedParagraphShown | src/lib/docx-processor.js:918-923 | every paragraph the classifier emits is written unchanged |
| BlogMarkup.ItemInList | src/lib/docx-processor.js:926-933 | every non-blank item is written in the list |
| BlogMarkup.ListItemShown | src/lib/docx-processor.js:928-931 | every non-blank item of a list unit is written |
| BlogMarkup.BlankItemDropped | src/lib/docx-processor.js:929 | a blank item writes nothing |
| BlogMarkup.HeadingShape | src/lib/docx-processor.js:910-916 | a missing level is written as `h2`, and a level-1 heading is centred with its class |
| BlogMarkup.FeaturedMarkup | src/lib/docx-processor.js:900-906 | the featured image tag, with `alt` and `title` only when present |
| BlogMarkup.ListItemsLoop | src/lib/docx-processor.js:928-932 | the item `forEach` writes the non-blank items in order |
| BlogMarkup.UnitMarkup | src/lib/docx-processor.js:909-942 | one case of the `switch` |
| BlogMarkup.ContentLoop | src/lib/docx-processor.js:908-943 | the content loop writes every unit, with `imageIndex` equal to the number of images before it |
| BlogMarkup.BlogLoop | src/lib/docx-processor.js:883-947 | the generator, for any text pieces, returns `BlogCode` |
| BlogMarkup.GenerateBlogCode | src/lib/docx-processor.js:883-947 | `generateBlogCode` with the source's literals |

## Left out

- The async wrappers `processCourseFile`, `processBlogFile` and `processGlossaryFile` are not modelled, apart from the synchronous part of `processCourseFile` (`Course.ProcessCourse`). The rest is `FileReader`, the mammoth converter and Promise plumbing.
- HTML parsing and DOM traversal are not modelled. The converter's output is taken as a list of blocks, or of elements with their subtree sizes. `textContent`, `innerHTML`, `outerHTML`, `alt` and the `li` lists are given fields of each block.
- `cleanHTML` and `improveListStructure` are not modelled (in-place DOM surgery). `extractBlogFAQContent` takes the blocks as they are after that cleaning. In `extractBlogContent` the truncation (lines 755-783) runs first, then the cleaning (lines 785-786), then the title choice and the walker. The model has no cleaning step: its elements are taken to be ones the cleaning leaves alone (no `div` wrappers, no empty leaves other than images, no blank list items).
- Blog.AfterTruncation: a removed element's ancestors keep the `textContent`, `innerHTML` (`inner`) and `li` list (`items`) recorded before the removals, so the walker's paragraph and list units for an ancestor still hold the removed content. In the browser these shrink after the removal and after the re-parse in `cleanHTML` (line 728). For example, a `ul` whose `li` starts with `link:` loses that `li` in the source but keeps it in the model's list unit.
- `generateOverviewCode` is not modelled. It rewrites headings with `replaceChild` and sets attributes on a parsed DOM.
- Strings.ToLower: case folding is ASCII only. The source's `/i` patterns without the `u` flag fold ASCII exactly, but `toLowerCase` and `toUpperCase` also fold other letters.
- Glossary.Key: the same ASCII folding is used for `toUpperCase`. A non-ASCII lower-case first letter keeps its case in the model.
- Patterns.NumberAfter: lesson and module numbers are unbounded naturals. The source's `parseInt` gives doubles, so numbers of 2^53 and more can compare equal in `a._number - b._number`, where the model keeps them distinct.
- Strings are sequences of Unicode characters, not UTF-16 code units. Lengths (`text.length < 200`, `substring(0, 50)`) count characters, and differ from the source only for characters outside the Basic Multilingual Plane.
- Escape.EscapeHtml: the `null`/`undefined` guard returning `''` is not modelled. Every caller passes a string, and strings cannot be null here.
- FaqMarkup.GenerateBlogFAQCode: the `!faqData` guard for a missing list is not modelled, for the same reason.
- Glossary: a cell's `innerText` is taken as given. Rows are the rows of the first table; nested tables, whose rows `getElementsByTagName` would also return, are assumed flattened by the converter.
- BlogMarkup.HeadingShape: a heading with no `className` would print `class="undefined"` in the source. The walker always sets `fs-<level>`, so that case never arises, and the model prints the empty class.
- The literal CSS and script of the glossary page and the blog footer are kept as constant strings, and no property is stated about their content.
- The pushes into arrays and the `+=` on strings are modelled as value updates of `seq` variables. No aliasing between the arrays is modelled, and the source has none.

## Findings

| source | as written | input that shows it | evidently intended | confidence | as-written member | corrected member |
|---|---|---|---|---|---|---|
| src/lib/docx-processor.js:829-831 | the walker skips every element whose trimmed `textContent` is empty before it reaches the `img` branch at lines 870-876. An `<img>` has no text, so no image unit is ever emitted and `imageCount` stays 0 | a document whose only element is `<img alt="x">` gives no content units and `imageCount` 0 | images become `[Image n]` units with their `alt`, which is what the `img` branch and the generator's `image` case are written for | not executed | Blog.WrittenBlogDropsImages | Blog.BlogImages |

The corrected walker (`Blog.WalkStep`, exempting `img` from the empty-text skip) is the one `Blog.ExtractBlogContent` and the blog generator use. `Blog.BlogImages` proves that it turns every reached `<img>` into one image unit, and `Blog.BlogKeepsImage` shows the contrast with the written walker on a one-image document.
