/** The FAQ extractors `extractFAQContent` (lines 474-565) and
    `extractBlogFAQContent` (lines 949-1047). Both locate a window behind the
    first FAQ heading and run the same reader over it, which tracks the
    current question, the answer collected for it, and whether it is
    collecting. The course extractor cleans question and answer with
    `cleanFAQText`; the blog extractor cleans only the question. */
module Faq {
  import opened Strings
  import opened Blocks
  import opened Patterns

  /** A pair as the reader emits it, before cleaning. `index` is the position
      of the block that opened the question. */
  datatype RawPair = RawPair(index: nat, question: string, answer: string)

  /** One entry of `faqData`. */
  datatype Faq = Faq(question: string, answer: string)

  // ---------------------------------------------------------------------
  // The window (lines 476-496)
  // ---------------------------------------------------------------------

  /** A heading whose text mentions `faq` or `frequently asked questions`. */
  predicate FaqHeading(b: Block) {
    var lt := ToLower(Text(b));
    (Contains(lt, "faq") || Contains(lt, "frequently asked questions")) && IsHeading(b.tag)
  }

  /** `faqStart`: the first FAQ heading, since the `forEach` keeps only its first hit. */
  function FaqStart(blocks: seq<Block>): Option<nat> {
    FindFirst(blocks, 0, FaqHeading)
  }

  /** Block `i` closes the window: it carries the `For Online Course Page:`
      marker, or it is a heading without `faq` more than three blocks behind
      the start. */
  predicate FaqEndMark(blocks: seq<Block>, start: nat, i: nat)
    requires i < |blocks|
  {
    var text := Text(blocks[i]);
    Contains(text, "For Online Course Page:")
    || (IsHeading(blocks[i].tag) && !Contains(ToLower(text), "faq") && i > start + 3)
  }

  /** The first end mark at or after `i`, else the number of blocks. */
  function FaqEndFrom(blocks: seq<Block>, start: nat, i: nat): (e: nat)
    requires i <= |blocks|
    ensures i <= e <= |blocks|
    ensures e < |blocks| ==> FaqEndMark(blocks, start, e)
    ensures forall k :: i <= k < e ==> !FaqEndMark(blocks, start, k)
    decreases |blocks| - i
  {
    if i == |blocks| then i
    else if FaqEndMark(blocks, start, i) then i
    else FaqEndFrom(blocks, start, i + 1)
  }

  /** `faqEnd`. */
  function FaqEnd(blocks: seq<Block>, start: nat): (e: nat)
    requires start < |blocks|
    ensures start < e <= |blocks|
  {
    FaqEndFrom(blocks, start, start + 1)
  }

  // ---------------------------------------------------------------------
  // The reader (lines 498-564)
  // ---------------------------------------------------------------------

  /** `isQuestion`: a numbered line, a bold or strong block with a `?`, or a
      line shorter than 200 characters ending in `?`. */
  predicate IsQuestion(b: Block) {
    var text := Text(b);
    var inner := Trim(b.inner);
    NumberedPrefix(text)
    || (Contains(inner, "<strong>") && HasChar(text, '?'))
    || (Contains(inner, "<b>") && HasChar(text, '?'))
    || (EndsWith(text, "?") && |text| < 200)
  }

  /** `nextIsQuestion`'s test on the following block: narrower than
      `IsQuestion`, it knows only numbered lines and `<strong>` with a `?`. */
  predicate LooksLikeQuestion(b: Block) {
    NumberedPrefix(Text(b)) || (Contains(b.inner, "<strong>") && HasChar(Text(b), '?'))
  }

  /** The answer a question line brings along: the text after the `?` of a
      numbered question, trimmed, else nothing. */
  function SeededAnswer(text: string): (r: string)
    ensures Trimmed(r)
    ensures QuestionRemainder(text).None? ==> r == []
    ensures QuestionRemainder(text).Some? ==> r == Trim(QuestionRemainder(text).value)
  {
    match QuestionRemainder(text)
    case Some(rest) => Trim(rest)
    case None => ""
  }

  /** A one-line numbered question `n. q?a` seeds its answer with `a`, trimmed. */
  lemma SeededAnswerOf(n: string, q: string, a: string)
    requires n != [] && forall k :: 0 <= k < |n| ==> IsDigit(n[k])
    requires (q == [] || !IsSpace(q[0])) && !HasChar(q, '?')
    requires NoLineTerminator(q) && NoLineTerminator(a)
    ensures SeededAnswer(n + ". " + q + "?" + a) == Trim(a)
  {
    QuestionRemainderOf(n, q, a);
  }

  /** `currentQuestion`, the block it came from, `currentAnswer`,
      `collectingAnswer`, and the pairs pushed so far. */
  datatype Reader = Reader(question: string, qIndex: nat, answer: string, collecting: bool, pairs: seq<RawPair>)

  const Fresh := Reader("", 0, "", false, [])

  /** The guarded push `if (currentQuestion && currentAnswer) faqData.push(...)`. */
  function Emit(r: Reader): seq<RawPair> {
    if r.question != [] && r.answer != [] then r.pairs + [RawPair(r.qIndex, r.question, r.answer)]
    else r.pairs
  }

  /** What the loop body does with block `i` of a window ending at `end`. */
  function FaqStep(blocks: seq<Block>, i: nat, end: nat, r: Reader): Reader
    requires i < end <= |blocks|
  {
    var b := blocks[i];
    var text := Text(b);
    if text == [] then r
    else if IsQuestion(b) then Reader(text, i, SeededAnswer(text), true, Emit(r))
    else if r.collecting then
      var answer := if r.answer != [] then r.answer + " " + b.outer else b.outer;
      if i + 1 < end && LooksLikeQuestion(blocks[i + 1]) then
        Reader("", r.qIndex, "", false, Emit(r.(answer := answer)))
      else r.(answer := answer)
    else r
  }

  /** The reader from block `i` to the end of the window. */
  function FaqRun(blocks: seq<Block>, i: nat, end: nat, r: Reader): Reader
    requires end <= |blocks|
    decreases end - i
  {
    if i >= end then r else FaqRun(blocks, i + 1, end, FaqStep(blocks, i, end, r))
  }

  /** Every pair the reader emits, in order, including the flush after the loop. */
  function RawPairs(blocks: seq<Block>): seq<RawPair> {
    match FaqStart(blocks)
    case None => []
    case Some(s) => Emit(FaqRun(blocks, s + 1, FaqEnd(blocks, s), Fresh))
  }

  /** The pushed records: the question always through `cleanFAQText`, the
      answer too when `cleanAnswer`. */
  function CleanPair(p: RawPair, cleanAnswer: bool): Faq {
    Faq(CleanFaqText(p.question), if cleanAnswer then CleanFaqText(p.answer) else p.answer)
  }

  /** The pushed records: the question always through `cleanFAQText`, the
      answer too when `cleanAnswer`. */
  function Cleaned(pairs: seq<RawPair>, cleanAnswer: bool): (r: seq<Faq>)
    ensures |r| == |pairs|
  {
    if pairs == [] then [] else Cleaned(pairs[..|pairs| - 1], cleanAnswer) + [CleanPair(pairs[|pairs| - 1], cleanAnswer)]
  }

  /** Record `k` is pair `k`, cleaned. */
  lemma {:induction false} CleanedAt(pairs: seq<RawPair>, cleanAnswer: bool, k: nat)
    requires k < |pairs|
    ensures Cleaned(pairs, cleanAnswer)[k] == CleanPair(pairs[k], cleanAnswer)
    decreases |pairs|
  {
    if k < |pairs| - 1 {
      CleanedAt(pairs[..|pairs| - 1], cleanAnswer, k);
    }
  }

  /** `extractFAQContent`'s result. */
  function CourseFaqs(blocks: seq<Block>): seq<Faq> {
    Cleaned(RawPairs(blocks), true)
  }

  /** `extractBlogFAQContent`'s result. */
  function BlogFaqs(blocks: seq<Block>): seq<Faq> {
    Cleaned(RawPairs(blocks), false)
  }

  // ---------------------------------------------------------------------
  // What the reader guarantees
  // ---------------------------------------------------------------------

  /** A pair that came from question block `p.index`, strictly inside the
      window that starts at `s`, below `bound`, with both halves non-empty. */
  predicate PairFrom(blocks: seq<Block>, s: nat, bound: nat, p: RawPair) {
    s < p.index < bound && p.index < |blocks|
    && p.question == Text(blocks[p.index]) && IsQuestion(blocks[p.index])
    && p.question != [] && p.answer != []
  }

  predicate Increasing(pairs: seq<RawPair>) {
    forall j, k :: 0 <= j < k < |pairs| ==> pairs[j].index < pairs[k].index
  }

  /** The reader's invariant before block `i`: every pair so far is
      well-formed and in order, and an open question came from an earlier
      question block behind every emitted one. */
  predicate Good(blocks: seq<Block>, s: nat, i: nat, r: Reader) {
    (forall k :: 0 <= k < |r.pairs| ==> PairFrom(blocks, s, i, r.pairs[k]))
    && Increasing(r.pairs)
    && (r.question != [] ==>
          s < r.qIndex < i && r.qIndex < |blocks|
          && r.question == Text(blocks[r.qIndex]) && IsQuestion(blocks[r.qIndex])
          && forall k :: 0 <= k < |r.pairs| ==> r.pairs[k].index < r.qIndex)
  }

  lemma EmitGood(blocks: seq<Block>, s: nat, i: nat, r: Reader)
    requires Good(blocks, s, i, r)
    ensures forall k :: 0 <= k < |Emit(r)| ==> PairFrom(blocks, s, i, Emit(r)[k])
    ensures Increasing(Emit(r))
    ensures r.question != [] ==> forall k :: 0 <= k < |Emit(r)| ==> Emit(r)[k].index <= r.qIndex
  {
  }

  lemma GoodWiden(blocks: seq<Block>, s: nat, i: nat, pairs: seq<RawPair>)
    requires forall k :: 0 <= k < |pairs| ==> PairFrom(blocks, s, i, pairs[k])
    ensures forall k :: 0 <= k < |pairs| ==> PairFrom(blocks, s, i + 1, pairs[k])
  {
  }

  /** A block that only extends the answer, and perhaps flushes it. */
  lemma CollectGood(blocks: seq<Block>, s: nat, i: nat, end: nat, r: Reader)
    requires s < i < end <= |blocks|
    requires Good(blocks, s, i, r)
    requires Text(blocks[i]) != [] && !IsQuestion(blocks[i]) && r.collecting
    ensures Good(blocks, s, i + 1, FaqStep(blocks, i, end, r))
  {
    var b := blocks[i];
    var answer := if r.answer != [] then r.answer + " " + b.outer else b.outer;
    var r1 := r.(answer := answer);
    GoodAnswer(blocks, s, i, r, answer);
    if i + 1 < end && LooksLikeQuestion(blocks[i + 1]) {
      EmitGood(blocks, s, i, r1);
      GoodWiden(blocks, s, i, Emit(r1));
    } else {
      GoodWiden(blocks, s, i, r.pairs);
    }
  }

  lemma GoodAnswer(blocks: seq<Block>, s: nat, i: nat, r: Reader, answer: string)
    requires Good(blocks, s, i, r)
    ensures Good(blocks, s, i, r.(answer := answer))
  {
  }

  lemma StepGood(blocks: seq<Block>, s: nat, i: nat, end: nat, r: Reader)
    requires s < i < end <= |blocks|
    requires Good(blocks, s, i, r)
    ensures Good(blocks, s, i + 1, FaqStep(blocks, i, end, r))
  {
    var b := blocks[i];
    if Text(b) == [] || (!IsQuestion(b) && !r.collecting) {
      GoodWiden(blocks, s, i, r.pairs);
    } else if IsQuestion(b) {
      EmitGood(blocks, s, i, r);
      GoodWiden(blocks, s, i, Emit(r));
    } else {
      CollectGood(blocks, s, i, end, r);
    }
  }

  lemma {:induction false} RunGood(blocks: seq<Block>, s: nat, i: nat, end: nat, r: Reader)
    requires s < i && end <= |blocks|
    requires Good(blocks, s, i, r)
    ensures Good(blocks, s, if i <= end then end else i, FaqRun(blocks, i, end, r))
    decreases end - i
  {
    if i < end {
      StepGood(blocks, s, i, end, r);
      RunGood(blocks, s, i + 1, end, FaqStep(blocks, i, end, r));
    }
  }

  /** Every emitted pair comes from a question block strictly inside the FAQ
      window, keeps that block's full text as its question, has a non-empty
      question and answer, and the pairs follow document order with at most
      one pair per question block. */
  lemma RawPairsWellFormed(blocks: seq<Block>)
    ensures RawPairs(blocks) != [] ==> FaqStart(blocks).Some?
    ensures FaqStart(blocks).Some? ==>
              var s := FaqStart(blocks).value;
              forall k :: 0 <= k < |RawPairs(blocks)| ==> PairFrom(blocks, s, FaqEnd(blocks, s), RawPairs(blocks)[k])
    ensures Increasing(RawPairs(blocks))
  {
    match FaqStart(blocks)
    case None =>
    case Some(s) =>
      var e := FaqEnd(blocks, s);
      RunGood(blocks, s, s + 1, e, Fresh);
      EmitGood(blocks, s, e, FaqRun(blocks, s + 1, e, Fresh));
  }

  /** No block before the window's end contributes two pairs, so the reader
      emits at most one pair per block of the window. */
  lemma PairsBounded(blocks: seq<Block>)
    ensures FaqStart(blocks).None? ==> RawPairs(blocks) == []
    ensures FaqStart(blocks).Some? ==>
              |RawPairs(blocks)| <= FaqEnd(blocks, FaqStart(blocks).value) - FaqStart(blocks).value - 1
  {
    RawPairsWellFormed(blocks);
    if FaqStart(blocks).Some? {
      var s := FaqStart(blocks).value;
      var e := FaqEnd(blocks, s);
      var pairs := RawPairs(blocks);
      IndicesBound(pairs, s, e);
    }
  }

  lemma {:induction false} IndicesBound(pairs: seq<RawPair>, s: nat, e: nat)
    requires s < e && Increasing(pairs)
    requires forall k :: 0 <= k < |pairs| ==> s < pairs[k].index < e
    ensures |pairs| <= e - s - 1
    decreases |pairs|
  {
    if pairs != [] {
      var init := pairs[..|pairs| - 1];
      var last := pairs[|pairs| - 1];
      assert forall k :: 0 <= k < |init| ==> init[k] == pairs[k];
      IndicesBound(init, s, last.index);
      assert |init| <= last.index - s - 1;
    }
  }

  /** The course extractor's records are clean: trimmed, with single blanks
      for white space, and there is one record per emitted pair. */
  lemma CourseFaqsClean(blocks: seq<Block>)
    ensures |CourseFaqs(blocks)| == |RawPairs(blocks)|
    ensures forall k :: 0 <= k < |CourseFaqs(blocks)| ==>
              Normalized(CourseFaqs(blocks)[k].question) && Normalized(CourseFaqs(blocks)[k].answer)
  {
    var pairs := RawPairs(blocks);
    forall k | 0 <= k < |pairs|
      ensures Normalized(CourseFaqs(blocks)[k].question) && Normalized(CourseFaqs(blocks)[k].answer)
    {
      CleanedAt(pairs, true, k);
      CleanFaqTextNormalized(pairs[k].question);
      CleanFaqTextNormalized(pairs[k].answer);
    }
  }

  /** The blog extractor keeps the raw answer, which is never empty. */
  lemma BlogFaqsAnswered(blocks: seq<Block>)
    ensures |BlogFaqs(blocks)| == |RawPairs(blocks)|
    ensures forall k :: 0 <= k < |BlogFaqs(blocks)| ==>
              BlogFaqs(blocks)[k].answer == RawPairs(blocks)[k].answer != []
  {
    RawPairsWellFormed(blocks);
    var pairs := RawPairs(blocks);
    if FaqStart(blocks).Some? {
      var s := FaqStart(blocks).value;
      forall k | 0 <= k < |pairs| ensures BlogFaqs(blocks)[k].answer == pairs[k].answer != [] {
        assert PairFrom(blocks, s, FaqEnd(blocks, s), pairs[k]);
        CleanedAt(pairs, false, k);
      }
    }
  }

  // ---------------------------------------------------------------------
  // The extractors as the source runs them
  // ---------------------------------------------------------------------

  /** The loop that finds `faqEnd`. */
  method FindFaqEnd(blocks: seq<Block>, s: nat) returns (end: nat)
    requires s < |blocks|
    ensures end == FaqEnd(blocks, s)
  {
    var j := s + 1;
    while j < |blocks|
      invariant s + 1 <= j <= |blocks|
      invariant FaqEndFrom(blocks, s, j) == FaqEnd(blocks, s)
      decreases |blocks| - j
    {
      if FaqEndMark(blocks, s, j) {
        return j;
      }
      j := j + 1;
    }
    return |blocks|;
  }

  /** One iteration of the reader's loop. */
  method ReadBlock(blocks: seq<Block>, i: nat, end: nat, r: Reader) returns (r': Reader)
    requires i < end <= |blocks|
    ensures r' == FaqStep(blocks, i, end, r)
  {
    var element := blocks[i];
    var text := Text(element);
    r' := r;
    if text == [] {
      return;
    }
    if IsQuestion(element) {
      var pairs := Emit(r);
      var answer := "";
      var m := QuestionRemainder(text);
      if m.Some? && Trim(m.value) != [] {
        answer := Trim(m.value);
      }
      r' := Reader(text, i, answer, true, pairs);
    } else if r.collecting {
      var answer := r.answer;
      if answer != [] {
        answer := answer + " " + element.outer;
      } else {
        answer := element.outer;
      }
      r' := r.(answer := answer);
      var nextIsQuestion := i + 1 < end && LooksLikeQuestion(blocks[i + 1]);
      if nextIsQuestion {
        r' := Reader("", r.qIndex, "", false, Emit(r'));
      }
    }
  }

  /** The reader's loop over the window and the flush behind it. */
  method CollectRawPairs(blocks: seq<Block>) returns (pairs: seq<RawPair>)
    ensures pairs == RawPairs(blocks)
  {
    var start := FirstOfAll(blocks, FaqHeading);
    if start.None? {
      return [];
    }
    var s := start.value;
    var end := FindFaqEnd(blocks, s);
    var r := Fresh;
    var i := s + 1;
    while i < end
      invariant s + 1 <= i <= end
      invariant FaqRun(blocks, i, end, r) == FaqRun(blocks, s + 1, end, Fresh)
      decreases end - i
    {
      r := ReadBlock(blocks, i, end, r);
      i := i + 1;
    }
    pairs := Emit(r);
  }

  /** The pushes with their `cleanFAQText` calls. */
  method CleanPairs(pairs: seq<RawPair>, cleanAnswer: bool) returns (faqs: seq<Faq>)
    ensures faqs == Cleaned(pairs, cleanAnswer)
  {
    faqs := [];
    var k := 0;
    while k < |pairs|
      invariant 0 <= k <= |pairs|
      invariant faqs == Cleaned(pairs[..k], cleanAnswer)
    {
      var p := pairs[k];
      var answer := if cleanAnswer then CleanFaqText(p.answer) else p.answer;
      var f := Faq(CleanFaqText(p.question), answer);
      assert f == CleanPair(p, cleanAnswer);
      assert pairs[..k + 1][..k] == pairs[..k] && pairs[..k + 1][k] == p;
      assert Cleaned(pairs[..k + 1], cleanAnswer) == Cleaned(pairs[..k], cleanAnswer) + [CleanPair(p, cleanAnswer)];
      faqs := faqs + [f];
      k := k + 1;
    }
    assert pairs[..k] == pairs;
  }

  /** `extractFAQContent`. */
  method ExtractFaqContent(blocks: seq<Block>) returns (faqs: seq<Faq>)
    ensures faqs == CourseFaqs(blocks)
  {
    var pairs := CollectRawPairs(blocks);
    faqs := CleanPairs(pairs, true);
  }

  /** `extractBlogFAQContent`, on the blocks left after cleaning. */
  method ExtractBlogFaqContent(blocks: seq<Block>) returns (faqs: seq<Faq>)
    ensures faqs == BlogFaqs(blocks)
  {
    var pairs := CollectRawPairs(blocks);
    faqs := CleanPairs(pairs, false);
  }
}
