/** The glossary: `extractGlossaryData` reads the term/definition rows of
    the document's first table, and `generateGlossaryCode` groups them by
    their first letter into an A-Z page with one button and one section
    per letter. */
module Glossary {
  import opened Strings

  /** A `td`: its `innerText` and its `innerHTML`. */
  datatype Cell = Cell(innerText: string, innerHTML: string)

  /** A `tr`, as the list of its `td` cells. */
  type Row = seq<Cell>

  /** A `table`, as the list of its `tr` rows. */
  type Table = seq<Row>

  datatype Entry = Entry(term: string, definition: string)

  // ---------------------------------------------------------------------
  // Extraction (lines 1117-1137)
  // ---------------------------------------------------------------------

  /** The entry a row gives: only a row of exactly two cells whose trimmed
      term and definition are both non-empty gives one. */
  function Pick(row: Row): Option<Entry> {
    if |row| == 2 && Trim(row[0].innerText) != [] && Trim(row[1].innerHTML) != [] then
      Some(Entry(Trim(row[0].innerText), Trim(row[1].innerHTML)))
    else None
  }

  /** What every row gives. */
  function Picks(rows: seq<Row>): (ps: seq<Option<Entry>>)
    ensures |ps| == |rows|
    ensures forall j :: 0 <= j < |rows| ==> ps[j] == Pick(rows[j])
  {
    seq(|rows|, j requires 0 <= j < |rows| => Pick(rows[j]))
  }

  /** The values of the `Some`s of `ps`, in order. */
  function Somes<T>(ps: seq<Option<T>>): seq<T> {
    if ps == [] then []
    else Somes(ps[..|ps| - 1]) + (if ps[|ps| - 1].Some? then [ps[|ps| - 1].value] else [])
  }

  /** `extractGlossaryData`: the first table, header row skipped. */
  function GlossaryData(tables: seq<Table>): seq<Entry> {
    if tables == [] || tables[0] == [] then [] else Somes(Picks(tables[0][1..]))
  }

  /** `idx` lists, in increasing order, exactly the positions of the `Some`s
      of `ps`, and `r[k]` is the value at `idx[k]`. */
  ghost predicate Indexes<T>(ps: seq<Option<T>>, r: seq<T>, idx: seq<nat>) {
    |idx| == |r|
    && (forall k :: 0 <= k < |idx| ==> idx[k] < |ps| && ps[idx[k]] == Some(r[k]))
    && (forall k, l :: 0 <= k < l < |idx| ==> idx[k] < idx[l])
    && (forall j :: 0 <= j < |ps| && ps[j].Some? ==> exists k :: 0 <= k < |idx| && idx[k] == j)
  }

  lemma IndexesSnoc<T>(ps: seq<Option<T>>, r: seq<T>, idx: seq<nat>, p: Option<T>)
    requires Indexes(ps, r, idx)
    ensures p.Some? ==> Indexes(ps + [p], r + [p.value], idx + [|ps|])
    ensures p.None? ==> Indexes(ps + [p], r, idx)
  {
    var ps' := ps + [p];
    forall j | 0 <= j < |ps| && ps'[j].Some?
      ensures exists k :: 0 <= k < |idx| && idx[k] == j
    {
      assert ps'[j] == ps[j];
    }
    if p.Some? {
      var r' := r + [p.value];
      var idx' := idx + [|ps|];
      forall k | 0 <= k < |idx'| ensures idx'[k] < |ps'| && ps'[idx'[k]] == Some(r'[k]) {
        if k < |idx| {
          assert idx'[k] == idx[k] && r'[k] == r[k];
        }
      }
      forall j | 0 <= j < |ps'| && ps'[j].Some?
        ensures exists k :: 0 <= k < |idx'| && idx'[k] == j
      {
        if j < |ps| {
          var k :| 0 <= k < |idx| && idx[k] == j;
          assert idx'[k] == j;
        } else {
          assert idx'[|idx|] == j;
        }
      }
    }
  }

  /** `Somes` keeps every `Some` and nothing else, in order. */
  lemma {:induction false} SomesIndexes<T>(ps: seq<Option<T>>) returns (idx: seq<nat>)
    ensures Indexes(ps, Somes(ps), idx)
  {
    if ps == [] {
      idx := [];
    } else {
      var init := ps[..|ps| - 1];
      var last := ps[|ps| - 1];
      idx := SomesIndexes(init);
      IndexesSnoc(init, Somes(init), idx, last);
      assert init + [last] == ps;
      if last.Some? {
        idx := idx + [|init|];
      }
    }
  }

  /** A term and a definition that are both trimmed and non-empty. */
  predicate SolidEntry(e: Entry) {
    e.term != [] && Trimmed(e.term) && e.definition != [] && Trimmed(e.definition)
  }

  /** The glossary holds, in order, the entries of exactly those rows after
      the header row of the first table that have two cells with a
      non-empty trimmed term and definition; with no table, or an empty
      one, it is empty. */
  lemma GlossaryDataRows(tables: seq<Table>) returns (idx: seq<nat>)
    ensures tables == [] || tables[0] == [] ==> GlossaryData(tables) == []
    ensures tables != [] && tables[0] != [] ==> Indexes(Picks(tables[0][1..]), GlossaryData(tables), idx)
  {
    idx := [];
    if tables != [] && tables[0] != [] {
      idx := SomesIndexes(Picks(tables[0][1..]));
    }
  }

  /** Every entry read from a row has a non-empty trimmed term and
      definition. */
  lemma PickSolid(row: Row)
    ensures Pick(row).Some? ==> SolidEntry(Pick(row).value)
  {
  }

  /** The row loop of `extractGlossaryData`. */
  method ExtractGlossaryData(tables: seq<Table>) returns (data: seq<Entry>)
    ensures data == GlossaryData(tables)
  {
    data := [];
    if tables == [] || tables[0] == [] {
      return;
    }
    var rows := tables[0];
    ghost var ps := Picks(rows[1..]);
    var i := 1;
    while i < |rows|
      invariant 1 <= i <= |rows|
      invariant data == Somes(ps[..i - 1])
    {
      var cells := rows[i];
      assert ps[i - 1] == Pick(cells);
      if |cells| == 2 {
        var term := Trim(cells[0].innerText);
        var definition := Trim(cells[1].innerHTML);
        if term != [] && definition != [] {
          data := data + [Entry(term, definition)];
        }
      }
      assert ps[..i][..i - 1] == ps[..i - 1];
      i := i + 1;
    }
    assert ps[..i - 1] == ps;
  }

  // ---------------------------------------------------------------------
  // Grouping (lines 1140-1147)
  // ---------------------------------------------------------------------

  /** The entry with its term and definition trimmed again. */
  function Normalize(e: Entry): Entry {
    Entry(Trim(e.term), Trim(e.definition))
  }

  /** Every entry trimmed again. */
  function NormalizeAll(data: seq<Entry>): (r: seq<Entry>)
    ensures |r| == |data|
  {
    if data == [] then [] else NormalizeAll(data[..|data| - 1]) + [Normalize(data[|data| - 1])]
  }

  lemma {:induction false} NormalizeAllAt(data: seq<Entry>, i: nat)
    requires i < |data|
    ensures NormalizeAll(data)[i] == Normalize(data[i])
  {
    if i < |data| - 1 {
      NormalizeAllAt(data[..|data| - 1], i);
    }
  }

  /** `term.charAt(0).toUpperCase()`: the empty string for an empty term. */
  function Key(term: string): (k: string)
    ensures |k| <= 1
  {
    if term == [] then [] else [UpperChar(term[0])]
  }

  /** The entries of `es` filed under `key`, in order. */
  function Filed(es: seq<Entry>, key: string): seq<Entry> {
    if es == [] then []
    else Filed(es[..|es| - 1], key) + (if Key(es[|es| - 1].term) == key then [es[|es| - 1]] else [])
  }

  /** The bucket of `key`: the normalised entries with that key. */
  function Bucket(data: seq<Entry>, key: string): seq<Entry> {
    Filed(NormalizeAll(data), key)
  }

  /** An entry is filed under its own key and under no other: the entries
      filed under `key` are exactly those of `es` with that key. */
  lemma {:induction false} FiledMembers(es: seq<Entry>, key: string, e: Entry)
    ensures e in Filed(es, key) <==> Key(e.term) == key && e in es
  {
    if es != [] {
      var init := es[..|es| - 1];
      FiledMembers(init, key, e);
      assert es == init + [es[|es| - 1]];
    }
  }

  /** Filing keeps the input order: `Filed` picks a subsequence. */
  lemma {:induction false} FiledOrder(es: seq<Entry>, key: string) returns (idx: seq<nat>)
    ensures |idx| == |Filed(es, key)|
    ensures forall k :: 0 <= k < |idx| ==> idx[k] < |es| && es[idx[k]] == Filed(es, key)[k]
    ensures forall k, l :: 0 <= k < l < |idx| ==> idx[k] < idx[l]
  {
    if es == [] {
      idx := [];
    } else {
      var init := es[..|es| - 1];
      idx := FiledOrder(init, key);
      if Key(es[|es| - 1].term) == key {
        idx := idx + [|es| - 1];
      }
    }
  }

  lemma BucketMember(data: seq<Entry>, i: nat)
    requires i < |data|
    ensures Normalize(data[i]) in Bucket(data, Key(Normalize(data[i]).term))
  {
    NormalizeAllAt(data, i);
    FiledMembers(NormalizeAll(data), Key(Normalize(data[i]).term), Normalize(data[i]));
  }

  /** `groupedData`: the key of every entry, each mapped to its bucket. */
  ghost predicate Groups(es: seq<Entry>, groups: map<string, seq<Entry>>) {
    (forall key :: key in groups <==> Filed(es, key) != [])
    && (forall key :: key in groups ==> groups[key] == Filed(es, key))
  }

  lemma FiledSnoc(es: seq<Entry>, e: Entry, key: string)
    ensures Filed(es + [e], key) == Filed(es, key) + (if Key(e.term) == key then [e] else [])
  {
    assert (es + [e])[..|es|] == es;
  }

  /** Adding one entry to its own key's list keeps the grouping. */
  lemma GroupsSnoc(es: seq<Entry>, groups: map<string, seq<Entry>>, e: Entry)
    requires Groups(es, groups)
    ensures Groups(es + [e], groups[Key(e.term) := (if Key(e.term) in groups then groups[Key(e.term)] else []) + [e]])
  {
    var g := groups[Key(e.term) := (if Key(e.term) in groups then groups[Key(e.term)] else []) + [e]];
    forall key ensures (key in g <==> Filed(es + [e], key) != []) && (key in g ==> g[key] == Filed(es + [e], key)) {
      FiledSnoc(es, e, key);
    }
  }

  /** The `forEach` of `generateGlossaryCode` that fills `groupedData`. */
  method GroupByLetter(data: seq<Entry>) returns (groups: map<string, seq<Entry>>)
    ensures Groups(NormalizeAll(data), groups)
  {
    ghost var es := NormalizeAll(data);
    groups := map[];
    var i := 0;
    while i < |data|
      invariant i <= |data|
      invariant Groups(es[..i], groups)
    {
      var e := Normalize(data[i]);
      NormalizeAllAt(data, i);
      var firstLetter := Key(e.term);
      GroupsSnoc(es[..i], groups, e);
      var bucket := if firstLetter in groups then groups[firstLetter] else [];
      groups := groups[firstLetter := bucket + [e]];
      assert es[..i + 1] == es[..i] + [e];
      i := i + 1;
    }
    assert es[..i] == es;
  }

  // ---------------------------------------------------------------------
  // The page (lines 1149-1203)
  // ---------------------------------------------------------------------

  /** The fixed text of the page, piece by piece; `Page` holds the pieces
      the generator writes. */
  datatype Template = Template(
    head: string,          // the style sheet, the `openItem` script and the opening tags
    middle: string,        // between the buttons and the sections
    tail: string,          // the closing tags
    buttonOpen: string,    // a button up to its `active` class
    buttonClick: string,   // from the end of the class to the letter in `openItem`
    buttonLabel: string,   // from the letter in `openItem` to the label
    buttonClose: string,   // after the label
    divOpen: string,       // a section up to its `id`
    divStyle: string,      // from the `id` to the `display` value
    divStyleEnd: string,   // after the `display` value
    divClose: string,      // the end of a section, and of a definition
    h2Open: string,        // before a term, or before an empty letter
    termEnd: string,       // between a term and its definition
    noTerms: string)       // after an empty letter

  const Page: Template := Template(
      "\n"
      + "            <style>\n"
      + "                .active.glossaryBtn,\n"
      + "                .glossaryBtn:hover {\n"
      + "                    background: black !important;\n"
      + "                    transform: translateY(-4px) scale(1);\n"
      + "                    transition: 0.2s;\n"
      + "                    color: #ffbf00!important\n"
      + "                }\n"
      + "            </style>\n"
      + "            <div class=\"custom-glossary\">\n"
      + "                <script>\n"
      + "                    function openItem(glossaryItem, evt) {\n"
      + "                        var items = document.getElementsByClassName(\"result-container\");\n"
      + "                        for (var i = 0; i < items.length; i++) {\n"
      + "                            items[i].style.display = \"none\";\n"
      + "                        }\n"
      + "                        document.getElementById(glossaryItem).style.display = \"block\";\n"
      + "\n"
      + "                        var btns = document.getElementsByClassName(\"glossaryBtn\");\n"
      + "                        for (var j = 0; j < btns.length; j++) {\n"
      + "                            btns[j].classList.remove(\"active\");\n"
      + "                        }\n"
      + "                        evt.target.classList.add(\"active\");\n"
      + "                    }\n"
      + "                </script>\n"
      + "                <div class=\"container\">\n"
      + "                    <div class=\"glossaryBtnMain alphabet-buttons mb-3\">\n"
      + "                        ",
      "\n"
      + "                    </div>\n"
      + "                    ",
      "\n"
      + "                </div>\n"
      + "            </div>",
    "<button class=\"glossaryBtn btn btn-outline-primary m-1 ",
    "\" onclick=\"openItem('",
    "', event)\">",
    "</button>\n",
    "<div id=\"",
    "\" class=\"result-container glosary-item\" style=\"display:",
    ";\">\n",
    "</div>\n",
    "<h2>",
    "</h2>\n<div>",
    "</h2><p>No terms found</p>\n")

  /** The letter with code `65 + i`. */
  function Letter(i: nat): char
    requires i < 26
  {
    (65 + i) as char
  }

  predicate IsUpper(c: char) { 'A' <= c <= 'Z' }

  /** The button of a letter: only `A` is `active`. */
  function Button(t: Template, c: char): string {
    t.buttonOpen + (if c == 'A' then "active" else "") + t.buttonClick + [c] + t.buttonLabel + [c] + t.buttonClose
  }

  /** A term and its definition. */
  function ItemCode(t: Template, e: Entry): string {
    t.h2Open + e.term + t.termEnd + e.definition + t.divClose
  }

  function ItemsCode(t: Template, items: seq<Entry>): string {
    Concat(seq(|items|, k requires 0 <= k < |items| => ItemCode(t, items[k])))
  }

  /** The placeholder of a letter without terms. */
  function EmptyLetter(t: Template, c: char): string {
    t.h2Open + [c] + t.noTerms
  }

  /** The opening tag of a letter's `div`: only `A` starts displayed. */
  function SectionOpen(t: Template, c: char): string {
    t.divOpen + [c] + t.divStyle + (if c == 'A' then "block" else "none") + t.divStyleEnd
  }

  /** The `div` of one letter. */
  function Section(t: Template, c: char, items: seq<Entry>): string {
    SectionOpen(t, c) + (if items != [] then ItemsCode(t, items) else EmptyLetter(t, c)) + t.divClose
  }

  /** The buttons of the first `n` letters. */
  function ButtonsUpTo(t: Template, n: nat): (r: seq<string>)
    requires n <= 26
    ensures |r| == n
  {
    if n == 0 then [] else ButtonsUpTo(t, n - 1) + [Button(t, Letter(n - 1))]
  }

  lemma {:induction false} ButtonAt(t: Template, n: nat, i: nat)
    requires i < n <= 26
    ensures ButtonsUpTo(t, n)[i] == Button(t, Letter(i))
  {
    if i < n - 1 {
      ButtonAt(t, n - 1, i);
    }
  }

  /** The sections of the first `n` letters. */
  function SectionsUpTo(t: Template, data: seq<Entry>, n: nat): (r: seq<string>)
    requires n <= 26
    ensures |r| == n
  {
    if n == 0 then [] else SectionsUpTo(t, data, n - 1) + [Section(t, Letter(n - 1), Bucket(data, [Letter(n - 1)]))]
  }

  lemma {:induction false} SectionAt(t: Template, data: seq<Entry>, n: nat, i: nat)
    requires i < n <= 26
    ensures SectionsUpTo(t, data, n)[i] == Section(t, Letter(i), Bucket(data, [Letter(i)]))
  {
    if i < n - 1 {
      SectionAt(t, data, n - 1, i);
    }
  }

  lemma FirstLetter(i: nat)
    requires i < 26
    ensures Letter(i) == 'A' <==> i == 0
  {
  }

  /** There is one button per letter `A`-`Z`, in order; only the first, `A`,
      is `active`. */
  lemma OnlyFirstButtonActive(t: Template, i: nat)
    requires i < 26
    ensures |ButtonsUpTo(t, 26)| == 26
    ensures ButtonsUpTo(t, 26)[i] == t.buttonOpen + (if i == 0 then "active" else "") + t.buttonClick
                                     + [Letter(i)] + t.buttonLabel + [Letter(i)] + t.buttonClose
  {
    ButtonAt(t, 26, i);
    FirstLetter(i);
  }

  /** There is one section per letter `A`-`Z`, in order; only the first,
      `A`, starts displayed. */
  lemma OnlyFirstSectionDisplayed(t: Template, data: seq<Entry>, i: nat)
    requires i < 26
    ensures |SectionsUpTo(t, data, 26)| == 26
    ensures StartsWith(SectionsUpTo(t, data, 26)[i],
                       t.divOpen + [Letter(i)] + t.divStyle + (if i == 0 then "block" else "none") + t.divStyleEnd)
  {
    SectionAt(t, data, 26, i);
    FirstLetter(i);
    var c := Letter(i);
    SectionStarts(t, c, Bucket(data, [c]));
  }

  lemma SectionStarts(t: Template, c: char, items: seq<Entry>)
    ensures StartsWith(Section(t, c, items), SectionOpen(t, c))
  {
    var open := SectionOpen(t, c);
    var rest := (if items != [] then ItemsCode(t, items) else EmptyLetter(t, c)) + t.divClose;
    assert open + rest == Section(t, c, items);
    assert (open + rest)[..|open|] == open;
  }

  /** The page for the text pieces `t`. */
  function PageCode(t: Template, data: seq<Entry>): string {
    t.head + Concat(ButtonsUpTo(t, 26)) + t.middle + Concat(SectionsUpTo(t, data, 26)) + t.tail
  }

  /** `generateGlossaryCode`. */
  function GlossaryCode(data: seq<Entry>): string {
    PageCode(Page, data)
  }

  /** An occurrence in section `i` is an occurrence on the page. */
  lemma SectionOnPage(t: Template, data: seq<Entry>, i: nat, s: string)
    requires i < 26 && Contains(Section(t, Letter(i), Bucket(data, [Letter(i)])), s)
    ensures Contains(PageCode(t, data), s)
  {
    SectionAt(t, data, 26, i);
    ConcatHas(SectionsUpTo(t, data, 26), i, s);
    ContainsWithin(t.head + Concat(ButtonsUpTo(t, 26)) + t.middle, Concat(SectionsUpTo(t, data, 26)), t.tail, s);
  }

  lemma ItemInSection(t: Template, c: char, items: seq<Entry>, k: nat)
    requires k < |items|
    ensures Contains(Section(t, c, items), ItemCode(t, items[k]))
  {
    var parts := seq(|items|, j requires 0 <= j < |items| => ItemCode(t, items[j]));
    var item := ItemCode(t, items[k]);
    assert parts[k] == item;
    ContainsInfix([], item, []);
    assert [] + item + [] == item;
    ConcatHas(parts, k, item);
    ContainsWithin(SectionOpen(t, c), ItemsCode(t, items), t.divClose, item);
  }

  /** Every entry whose term starts with a letter `A`-`Z` (in either case)
      shows up on the page as its `<h2>` term and its definition. */
  lemma EntryOnPage(t: Template, data: seq<Entry>, i: nat)
    requires i < |data| && var e := Normalize(data[i]); e.term != [] && IsUpper(UpperChar(e.term[0]))
    ensures Contains(PageCode(t, data), ItemCode(t, Normalize(data[i])))
  {
    var e := Normalize(data[i]);
    var c := UpperChar(e.term[0]);
    var li := c as int - 65;
    assert Letter(li) == c;
    var items := Bucket(data, [c]);
    BucketMember(data, i);
    var k :| 0 <= k < |items| && items[k] == e;
    ItemInSection(t, c, items, k);
    SectionOnPage(t, data, li, ItemCode(t, e));
  }

  /** A letter without terms gets the `No terms found` placeholder. */
  lemma EmptyLetterShown(t: Template, data: seq<Entry>, i: nat)
    requires i < 26 && Bucket(data, [Letter(i)]) == []
    ensures Contains(PageCode(t, data), EmptyLetter(t, Letter(i)))
  {
    var c := Letter(i);
    ContainsInfix(SectionOpen(t, c), EmptyLetter(t, c), t.divClose);
    SectionOnPage(t, data, i, EmptyLetter(t, c));
  }

  /** An entry the page can show: its key is a letter `A`-`Z`. */
  predicate LetterKeyed(e: Entry) {
    var k := Key(Normalize(e).term);
    k != [] && IsUpper(k[0])
  }

  /** The entries the page can show. */
  function Lettered(data: seq<Entry>): (r: seq<Entry>)
    ensures |r| <= |data|
  {
    if data == [] then []
    else Lettered(data[..|data| - 1]) + (if LetterKeyed(data[|data| - 1]) then [data[|data| - 1]] else [])
  }

  lemma BucketSnoc(data: seq<Entry>, e: Entry, key: string)
    ensures Bucket(data + [e], key)
            == Bucket(data, key) + (if Key(Normalize(e).term) == key then [Normalize(e)] else [])
  {
    assert (data + [e])[..|data|] == data;
    FiledSnoc(NormalizeAll(data), Normalize(e), key);
  }

  lemma BucketLast(data: seq<Entry>, key: string)
    requires data != []
    ensures var e := Normalize(data[|data| - 1]);
            Bucket(data, key) == Bucket(data[..|data| - 1], key) + (if Key(e.term) == key then [e] else [])
  {
  }

  lemma {:induction false} LetteredBucket(data: seq<Entry>, c: char)
    requires IsUpper(c)
    ensures Bucket(Lettered(data), [c]) == Bucket(data, [c])
  {
    if data != [] {
      var init := data[..|data| - 1];
      var e := data[|data| - 1];
      LetteredBucket(init, c);
      BucketLast(data, [c]);
      var k := Key(Normalize(e).term);
      if LetterKeyed(e) {
        assert Lettered(data) == Lettered(init) + [e];
        BucketSnoc(Lettered(init), e, [c]);
      } else {
        assert Lettered(data) == Lettered(init);
        assert k != [c] by {
          if k != [] {
            assert k[0] != c;
          }
        }
      }
    }
  }

  /** Terms whose first character is not a letter `A`-`Z` once upper-cased
      (digits, punctuation, accented letters, empty terms) never reach the
      page: it is the page of the lettered entries alone. */
  lemma {:induction false} LetteredSections(t: Template, data: seq<Entry>, n: nat)
    requires n <= 26
    ensures SectionsUpTo(t, Lettered(data), n) == SectionsUpTo(t, data, n)
  {
    if n > 0 {
      LetteredSections(t, data, n - 1);
      LetteredBucket(data, Letter(n - 1));
    }
  }

  /** Terms whose first character is not a letter `A`-`Z` once upper-cased
      (digits, punctuation, accented letters, empty terms) never reach the
      page: it is the page of the lettered entries alone. */
  lemma UnletteredDropped(t: Template, data: seq<Entry>)
    ensures PageCode(t, Lettered(data)) == PageCode(t, data)
  {
    LetteredSections(t, data, 26);
  }

  /** The `forEach` over one letter's entries. */
  method ItemsLoop(t: Template, items: seq<Entry>) returns (code: string)
    ensures code == ItemsCode(t, items)
  {
    ghost var parts := seq(|items|, k requires 0 <= k < |items| => ItemCode(t, items[k]));
    code := [];
    var k := 0;
    while k < |items|
      invariant k <= |items| && code == Concat(parts[..k])
    {
      ConcatSnoc(parts, k);
      var item := items[k];
      code := code + t.h2Open + item.term + t.termEnd + item.definition + t.divClose;
      k := k + 1;
    }
    assert parts[..k] == parts;
  }

  /** The `div` of one letter. */
  method SectionCode(t: Template, letter: char, items: seq<Entry>) returns (code: string)
    ensures code == Section(t, letter, items)
  {
    var body;
    if items != [] {
      body := ItemsLoop(t, items);
    } else {
      body := t.h2Open + [letter] + t.noTerms;
    }
    code := t.divOpen + [letter] + t.divStyle + (if letter == 'A' then "block" else "none") + t.divStyleEnd
            + body + t.divClose;
  }

  /** The button and the `div` of the `i`-th letter. */
  method LetterCode(t: Template, groupedData: map<string, seq<Entry>>, ghost data: seq<Entry>, i: nat)
    returns (button: string, section: string)
    requires i < 26 && Groups(NormalizeAll(data), groupedData)
    ensures button == ButtonsUpTo(t, 26)[i] && section == SectionsUpTo(t, data, 26)[i]
  {
    var letter := Letter(i);
    ButtonAt(t, 26, i);
    SectionAt(t, data, 26, i);
    button := t.buttonOpen + (if letter == 'A' then "active" else "") + t.buttonClick + [letter]
              + t.buttonLabel + [letter] + t.buttonClose;
    var items := if [letter] in groupedData then groupedData[[letter]] else [];
    assert items == Bucket(data, [letter]);
    section := SectionCode(t, letter, items);
  }

  /** The letter loop: the buttons and the sections of all 26 letters. */
  method LetterLoop(t: Template, data: seq<Entry>) returns (alphabetButtons: string, glossaryContent: string)
    ensures alphabetButtons == Concat(ButtonsUpTo(t, 26)) && glossaryContent == Concat(SectionsUpTo(t, data, 26))
  {
    var groupedData := GroupByLetter(data);
    ghost var buttons := ButtonsUpTo(t, 26);
    ghost var sections := SectionsUpTo(t, data, 26);
    alphabetButtons := "";
    glossaryContent := "";
    var i := 0;
    while i < 26
      invariant i <= 26
      invariant alphabetButtons == Concat(buttons[..i])
      invariant glossaryContent == Concat(sections[..i])
    {
      var button, section := LetterCode(t, groupedData, data, i);
      ConcatSnoc(buttons, i);
      ConcatSnoc(sections, i);
      alphabetButtons := alphabetButtons + button;
      glossaryContent := glossaryContent + section;
      i := i + 1;
    }
    assert buttons[..26] == buttons && sections[..26] == sections;
  }

  /** `generateGlossaryCode`. */
  method GenerateGlossaryCode(data: seq<Entry>) returns (html: string)
    ensures html == GlossaryCode(data)
  {
    var alphabetButtons, glossaryContent := LetterLoop(Page, data);
    html := Page.head + alphabetButtons + Page.middle + glossaryContent + Page.tail;
  }
}
