/** The farmer dashboard's rendering of an AI insights report: the report is first read as JSON
    (after stripping code fences and cutting out the outermost brace span); when it carries one of
    the three structured sections those are shown, otherwise the raw text is parsed line by line
    into titled sections holding product groups and plain items. */
module FarmerDashboard {
  import opened Wrappers
  import opened Seqs
  import opened Strings
  import opened JsonValues

  // ---------------------------------------------------------------- the line shapes

  const HeaderOpen := "**"
  const LabelEnd := ":**"
  const InsightsTitle := "Insights"
  const Newline := "\n"

  predicate IsDigit(c: char)
  {
    '0' <= c <= '9'
  }

  /** The length of the run of digits `s` starts with. */
  function DigitRun(s: string): (n: nat)
    ensures n <= |s|
    ensures forall i :: 0 <= i < n ==> IsDigit(s[i])
    ensures n < |s| ==> !IsDigit(s[n])
  {
    if s != [] && IsDigit(s[0]) then 1 + DigitRun(s[1..]) else 0
  }

  /** The length of the run of `\s` characters `s` starts with. */
  function SpaceRun(s: string): (n: nat)
    ensures n <= |s|
    ensures AllWhitespace(s[..n])
    ensures n < |s| ==> !IsJsWhitespace(s[n])
  {
    if s != [] && IsJsWhitespace(s[0]) then
      var n := 1 + SpaceRun(s[1..]);
      assert s[..n] == [s[0]] + s[1..][..n - 1];
      n
    else 0
  }

  /** The lazy group `(.+?)` followed by `:**`, anchored at the start of `u`, with the candidate
      lengths below `n` already rejected: the shortest label of at least `n` characters without a
      line terminator that `:**` follows. */
  function LabelFrom(u: string, n: nat): (r: Option<string>)
    requires 1 <= n
    ensures r.Some? ==> n <= |r.value| <= |u| && r.value == u[..|r.value|]
    decreases |u| + 1 - n
  {
    if n > |u| then None
    else if IsLineTerminator(u[n - 1]) then None
    else if OccursAt(u, LabelEnd, n) then Some(u[..n])
    else LabelFrom(u, n + 1)
  }

  /** `(.+?):\*\*` matched at the start of `u`: its group. */
  function Label(u: string): (r: Option<string>)
    ensures r.Some? ==> 1 <= |r.value| <= |u| && r.value == u[..|r.value|]
  {
    LabelFrom(u, 1)
  }

  /** The label is what the lazy group matches: `:**` follows it, it holds no line terminator,
      no shorter candidate is followed by `:**`, and there is none only when every `:**` has a
      line terminator before it. */
  lemma {:induction false} LabelFromIsLazy(u: string, n: nat)
    requires 1 <= n
    ensures var r := LabelFrom(u, n);
      r.Some? ==> OccursAt(u, LabelEnd, |r.value|)
                  && (forall i :: n - 1 <= i < |r.value| ==> !IsLineTerminator(u[i]))
                  && (forall m :: n <= m < |r.value| ==> !OccursAt(u, LabelEnd, m))
    ensures LabelFrom(u, n).None? ==>
              forall m :: n <= m && OccursAt(u, LabelEnd, m) ==> exists i :: n - 1 <= i < m && IsLineTerminator(u[i])
    decreases |u| + 1 - n
  {
    if n <= |u| && !IsLineTerminator(u[n - 1]) && !OccursAt(u, LabelEnd, n) {
      LabelFromIsLazy(u, n + 1);
    }
  }

  lemma LabelIsLazy(u: string)
    ensures Label(u).Some? ==> OccursAt(u, LabelEnd, |Label(u).value|)
                               && (forall i :: 0 <= i < |Label(u).value| ==> !IsLineTerminator(u[i]))
                               && (forall m :: 1 <= m < |Label(u).value| ==> !OccursAt(u, LabelEnd, m))
    ensures Label(u).None? ==>
              forall m :: 1 <= m && OccursAt(u, LabelEnd, m) ==> exists i :: 0 <= i < m && IsLineTerminator(u[i])
  {
    LabelFromIsLazy(u, 1);
  }

  /** `\s*(.+?):\*\*` on `rest`, whose whitespace run the greedy `\s*` gives back one character at
      a time (from `k` down to none) until the label matches. */
  function TitleAfterSpaces(rest: string, k: nat): (r: Option<string>)
    requires k <= |rest|
    ensures r.Some? ==> 1 <= |r.value|
  {
    match Label(rest[k..])
    case Some(l) => Some(l)
    case None => if k == 0 then None else TitleAfterSpaces(rest, k - 1)
  }

  /** The title is the label after the longest whitespace prefix (at most `k`) that lets one
      match, and there is none only when no such prefix does. */
  lemma {:induction false} TitleAfterSpacesIsGreedy(rest: string, k: nat)
    requires k <= |rest|
    ensures var r := TitleAfterSpaces(rest, k);
      r.Some? ==> exists j :: 0 <= j <= k && Label(rest[j..]) == r && forall m :: j < m <= k ==> Label(rest[m..]).None?
    ensures TitleAfterSpaces(rest, k).None? ==> forall j :: 0 <= j <= k ==> Label(rest[j..]).None?
  {
    if Label(rest[k..]).None? && k > 0 {
      TitleAfterSpacesIsGreedy(rest, k - 1);
    }
  }

  /** `/^\*\*(\d+)\.\s*(.+?):\*\*\/` on a trimmed line: the second group (the section title). */
  function MainHeader(t: string): (r: Option<string>)
    ensures r.Some? ==> StartsWith(t, HeaderOpen) && 2 < |t| && IsDigit(t[2])
    ensures r.Some? ==> |r.value| >= 1
  {
    if !StartsWith(t, HeaderOpen) then None
    else
      var s := t[2..];
      var d := DigitRun(s);
      if d == 0 || d == |s| || s[d] != '.' then None
      else
        var rest := s[d + 1..];
        TitleAfterSpaces(rest, SpaceRun(rest))
  }

  /** `/^\*\*(.+?):\*\*\/` on a trimmed line: the product name. */
  function ProductHeader(t: string): (r: Option<string>)
    ensures r.Some? ==> StartsWith(t, HeaderOpen) && 2 + |r.value| <= |t| && t[2..2 + |r.value|] == r.value
  {
    if StartsWith(t, HeaderOpen) then Label(t[2..]) else None
  }

  /** A numbered header gives its title without the spaces after the dot. */
  lemma MainHeaderExample()
    ensures MainHeader("**1. Tip:**") == Some("Tip")
  {
    var t := "**1. Tip:**";
    assert t[2..] == "1. Tip:**";
    assert DigitRun("1. Tip:**") == 1;
    assert "1. Tip:**"[2..] == " Tip:**";
    TipTitle();
  }

  lemma TipTitle()
    ensures TitleAfterSpaces(" Tip:**", SpaceRun(" Tip:**")) == Some("Tip")
  {
    assert SpaceRun(" Tip:**") == 1;
    assert " Tip:**"[1..] == "Tip:**";
    TipLabel();
  }

  lemma TipLabel()
    ensures Label("Tip:**") == Some("Tip")
  {
    var u := "Tip:**";
    assert u[3..6] == LabelEnd && u[..3] == "Tip";
    assert LabelFrom(u, 3) == Some("Tip");
    assert u[1..4] != LabelEnd && u[2..5] != LabelEnd;
  }

  /** A bold name line is a product header and not a main header. */
  lemma ProductHeaderExample()
    ensures MainHeader("**Kale:**") == None && ProductHeader("**Kale:**") == Some("Kale")
  {
    assert "**Kale:**"[2..] == "Kale:**";
    var u := "Kale:**";
    assert u[4..7] == LabelEnd && u[..4] == "Kale";
    assert LabelFrom(u, 4) == Some("Kale");
    assert u[1..4] != LabelEnd && u[2..5] != LabelEnd && u[3..6] != LabelEnd;
    assert LabelFrom(u, 1) == Some("Kale");
  }

  /** A line starting with `-` or `•`. */
  predicate IsBullet(t: string)
  {
    t != [] && (t[0] == '-' || t[0] == '•')
  }

  /** The text a line contributes as an item: a bullet loses its marker and the whitespace after
      it (`replace(/^[-•]\s*\/, '')`) and is trimmed again; any other line stays as it is. */
  function ItemText(t: string): (r: string)
    ensures IsBullet(t) ==> r == Trim(t[1..])
    ensures !IsBullet(t) ==> r == t
  {
    if IsBullet(t) then
      var u := t[1..];
      var k := SpaceRun(u);
      TrimStartSkipsWhitespace(u, k);
      Trim(u[k..])
    else t
  }

  /** Whitespace at the front of a string does not change its trim. */
  lemma {:induction false} TrimStartSkipsWhitespace(u: string, k: nat)
    requires k <= |u| && AllWhitespace(u[..k])
    ensures TrimStart(u[k..]) == TrimStart(u) && Trim(u[k..]) == Trim(u)
    decreases k
  {
    if k > 0 {
      assert IsJsWhitespace(u[..k][0]);
      assert u[1..][..k - 1] == u[1..k];
      assert forall i :: 0 <= i < k - 1 ==> u[1..k][i] == u[..k][i + 1];
      TrimStartSkipsWhitespace(u[1..], k - 1);
      assert u[1..][k - 1..] == u[k..];
    }
  }

  // ---------------------------------------------------------------- the parser

  datatype ProductGroup = ProductGroup(name: string, items: seq<string>)

  datatype Section = Section(title: string, products: seq<ProductGroup>, regularItems: seq<string>)

  /** The parser's variables between two lines: the finished sections, `currentSection`, and
      whether `currentProduct` is set. The source's `currentProduct`, when set, is always the last
      group pushed onto `currentSection.products`, so it is represented by that position. */
  datatype ParserState = ParserState(sections: seq<Section>, current: Option<Section>, productOpen: bool)

  predicate Valid(st: ParserState)
  {
    st.productOpen ==> st.current.Some? && |st.current.value.products| > 0
  }

  const Start := ParserState([], None, false)

  /** The sections the parser would hand over if the text ended here. */
  function Closed(st: ParserState): (r: seq<Section>)
    ensures st.current.None? ==> r == st.sections
    ensures st.current.Some? ==> |r| == |st.sections| + 1 && r[..|st.sections|] == st.sections
  {
    match st.current
    case None => st.sections
    case Some(sec) => st.sections + [sec]
  }

  function AddToLastGroup(sec: Section, item: string): (r: Section)
    requires |sec.products| > 0
  {
    var n := |sec.products|;
    var g := sec.products[n - 1];
    sec.(products := sec.products[..n - 1] + [g.(items := g.items + [item])])
  }

  /** `s` begins with `p`. */
  predicate IsPrefix<T(==)>(p: seq<T>, s: seq<T>)
  {
    |p| <= |s| && s[..|p|] == p
  }

  /** One line of the `forEach` body. */
  function Step(st: ParserState, line: string): (r: ParserState)
    requires Valid(st)
    ensures Valid(r)
    ensures r.current.Some? <==> st.current.Some? || !Blank(line)
    ensures r.current.None? ==> r.sections == st.sections
    ensures IsPrefix(st.sections, r.sections)
  {
    if Blank(line) then st.(productOpen := false) else TextStep(st, Trim(line))
  }

  /** A line with text, `t` being the trimmed line. */
  function TextStep(st: ParserState, t: string): (r: ParserState)
    requires Valid(st)
    ensures Valid(r) && r.current.Some?
    ensures IsPrefix(st.sections, r.sections)
  {
    match MainHeader(t)
    case Some(title) => ParserState(Closed(st), Some(Section(Trim(title), [], [])), false)
    case None =>
      match st.current
      case None => ParserState(st.sections, Some(Section(InsightsTitle, [], [t])), false)
      case Some(sec) =>
        match ProductHeader(t)
        case Some(name) =>
          ParserState(st.sections, Some(sec.(products := sec.products + [ProductGroup(Trim(name), [])])), true)
        case None =>
          var item := ItemText(t);
          if st.productOpen then ParserState(st.sections, Some(AddToLastGroup(sec, item)), true)
          else ParserState(st.sections, Some(sec.(regularItems := sec.regularItems + [item])), false)
  }

  /** A blank line adds nothing and closes the open product group. */
  lemma BlankLineClosesGroup(st: ParserState, line: string)
    requires Valid(st) && Blank(line)
    ensures Closed(Step(st, line)) == Closed(st) && !Step(st, line).productOpen
  {
  }

  /** A main header finishes the open section and opens an empty one under the trimmed title. */
  lemma MainHeaderOpensSection(st: ParserState, line: string)
    requires Valid(st) && !Blank(line) && MainHeader(Trim(line)).Some?
    ensures var r := Step(st, line);
      r.sections == Closed(st) && !r.productOpen
      && r.current == Some(Section(Trim(MainHeader(Trim(line)).value), [], []))
  {
  }

  /** Inside a section, a product header that is not a main header appends an empty group under
      the trimmed name to that section and makes it the open group. */
  lemma ProductHeaderOpensGroup(st: ParserState, line: string)
    requires Valid(st) && st.current.Some? && !Blank(line)
    requires MainHeader(Trim(line)).None? && ProductHeader(Trim(line)).Some?
    ensures var r := Step(st, line);
      var sec := st.current.value;
      r.sections == st.sections && r.productOpen
      && r.current == Some(sec.(products := sec.products + [ProductGroup(Trim(ProductHeader(Trim(line)).value), [])]))
  {
  }

  /** Inside a section, any other line with text becomes an item (a bullet without its marker):
      of the open group if there is one, else of the section's regular items. */
  lemma ItemGoesToOpenGroup(st: ParserState, line: string)
    requires Valid(st) && st.current.Some? && !Blank(line)
    requires MainHeader(Trim(line)).None? && ProductHeader(Trim(line)).None?
    ensures var r := Step(st, line);
      var sec, sec' := st.current.value, r.current.value;
      var item := ItemText(Trim(line));
      r.sections == st.sections && r.productOpen == st.productOpen
      && sec'.title == sec.title
      && (st.productOpen ==>
            |sec'.products| == |sec.products|
            && sec'.products[..|sec.products| - 1] == sec.products[..|sec.products| - 1]
            && sec'.products[|sec.products| - 1].name == sec.products[|sec.products| - 1].name
            && sec'.products[|sec.products| - 1].items == sec.products[|sec.products| - 1].items + [item]
            && sec'.regularItems == sec.regularItems)
      && (!st.productOpen ==> sec'.products == sec.products && sec'.regularItems == sec.regularItems + [item])
  {
  }

  /** Before any section, a line with text that is not a main header opens the "Insights" section
      holding the trimmed line itself, whatever its shape. */
  lemma TextBeforeAnySectionIsInsights(st: ParserState, line: string)
    requires Valid(st) && st.current.None? && OpensImplicitly(line)
    ensures var r := Step(st, line);
      r.sections == st.sections && !r.productOpen
      && r.current == Some(Section(InsightsTitle, [], [Trim(line)]))
  {
  }

  /** The state after the given lines, from the empty state. */
  function Run(lines: seq<string>): (r: ParserState)
    ensures Valid(r)
  {
    if lines == [] then Start else Step(Run(lines[..|lines| - 1]), lines[|lines| - 1])
  }

  /** What the fallback parser produces for a report. */
  function ParseSpec(aiInsights: string): seq<Section>
  {
    Closed(Run(Split(aiInsights, Newline)))
  }

  /** The `forEach` over `aiInsights.split('\n')` and the final push. */
  method ParseInsightText(aiInsights: string) returns (sections: seq<Section>)
    ensures sections == ParseSpec(aiInsights)
  {
    var lines := Split(aiInsights, Newline);
    sections := [];
    var currentSection: Option<Section> := None;
    var productOpen := false;
    var i := 0;
    while i < |lines|
      invariant 0 <= i <= |lines|
      invariant ParserState(sections, currentSection, productOpen) == Run(lines[..i])
    {
      assert lines[..i + 1][..i] == lines[..i];
      var trimmed := Trim(lines[i]);
      if trimmed == "" {
        productOpen := false;
      } else {
        var mainHeader := MainHeader(trimmed);
        if mainHeader.Some? {
          if currentSection.Some? {
            sections := sections + [currentSection.value];
          }
          currentSection := Some(Section(Trim(mainHeader.value), [], []));
          productOpen := false;
        } else if currentSection.Some? {
          var sec := currentSection.value;
          var productHeader := ProductHeader(trimmed);
          if productHeader.Some? {
            currentSection := Some(sec.(products := sec.products + [ProductGroup(Trim(productHeader.value), [])]));
            productOpen := true;
          } else {
            var item := ItemText(trimmed);
            if productOpen {
              currentSection := Some(AddToLastGroup(sec, item));
            } else {
              currentSection := Some(sec.(regularItems := sec.regularItems + [item]));
            }
          }
        } else {
          currentSection := Some(Section(InsightsTitle, [], [trimmed]));
        }
      }
      i := i + 1;
    }
    assert lines[..i] == lines;
    if currentSection.Some? {
      sections := sections + [currentSection.value];
    }
  }

  // ---------------------------------------------------------------- what the parser guarantees

  /** `!line.trim()`: the line is whitespace only. */
  predicate Blank(line: string)
  {
    AllWhitespace(line)
  }

  predicate NotBlank(line: string)
  {
    !Blank(line)
  }

  predicate AllBlank(lines: seq<string>)
  {
    forall i :: 0 <= i < |lines| ==> Blank(lines[i])
  }

  /** A section stays open from the first non-blank line on, and nothing is finished before it. */
  lemma {:induction false} OpenAfterFirstText(lines: seq<string>)
    ensures Run(lines).current.Some? <==> !AllBlank(lines)
    ensures Run(lines).current.None? ==> Run(lines).sections == []
  {
    if lines != [] {
      var p := lines[..|lines| - 1];
      OpenAfterFirstText(p);
      assert forall i :: 0 <= i < |p| ==> p[i] == lines[i];
    }
  }

  /** The parse is empty exactly when every line is blank. */
  lemma EmptyIffAllBlank(lines: seq<string>)
    ensures Closed(Run(lines)) == [] <==> AllBlank(lines)
  {
    OpenAfterFirstText(lines);
  }

  /** Sections are finished in input order: what is finished after a prefix of the lines stays
      at the front of what is finished after all of them, and the open one comes last. */
  lemma {:induction false} SectionsInInputOrder(lines: seq<string>, n: nat)
    requires n <= |lines|
    ensures IsPrefix(Run(lines[..n]).sections, Run(lines).sections)
    ensures IsPrefix(Run(lines).sections, Closed(Run(lines)))
    decreases |lines|
  {
    if n < |lines| {
      var p := lines[..|lines| - 1];
      assert lines[..n] == p[..n];
      SectionsInInputOrder(p, n);
    } else {
      assert lines[..n] == lines;
    }
  }

  function GroupsSize(ps: seq<ProductGroup>): nat
  {
    if ps == [] then 0 else GroupsSize(ps[..|ps| - 1]) + 1 + |ps[|ps| - 1].items|
  }

  /** The entries of a section: its title, its product names, their items and its regular items. */
  function SectionSize(s: Section): nat
  {
    1 + GroupsSize(s.products) + |s.regularItems|
  }

  function SectionsSize(ss: seq<Section>): nat
  {
    if ss == [] then 0 else SectionsSize(ss[..|ss| - 1]) + SectionSize(ss[|ss| - 1])
  }

  lemma SectionsSizeSnoc(ss: seq<Section>, s: Section)
    ensures SectionsSize(ss + [s]) == SectionsSize(ss) + SectionSize(s)
  {
    assert (ss + [s])[..|ss|] == ss;
  }

  lemma GroupsSizeSnoc(ps: seq<ProductGroup>, g: ProductGroup)
    ensures GroupsSize(ps + [g]) == GroupsSize(ps) + 1 + |g.items|
  {
    assert (ps + [g])[..|ps|] == ps;
  }

  /** The number of non-blank lines. */
  function TextLines(lines: seq<string>): nat
  {
    if lines == [] then 0
    else TextLines(lines[..|lines| - 1]) + (if Blank(lines[|lines| - 1]) then 0 else 1)
  }

  /** A line with text that is not a main header: the first such line, when no main header
      precedes it, opens the "Insights" section. */
  predicate OpensImplicitly(line: string)
  {
    !Blank(line) && MainHeader(Trim(line)).None?
  }

  /** The first line with text is not a main header. */
  predicate StartsImplicitly(lines: seq<string>)
  {
    lines != []
    && (StartsImplicitly(lines[..|lines| - 1])
        || (AllBlank(lines[..|lines| - 1]) && OpensImplicitly(lines[|lines| - 1])))
  }

  lemma {:induction false} ImplicitStartHasText(lines: seq<string>)
    requires StartsImplicitly(lines)
    ensures !AllBlank(lines)
  {
    var p := lines[..|lines| - 1];
    if StartsImplicitly(p) {
      ImplicitStartHasText(p);
      var i :| 0 <= i < |p| && !Blank(p[i]);
      assert lines[i] == p[i];
    } else {
      assert !Blank(lines[|lines| - 1]);
    }
  }

  /** One line adds one entry if it has text, plus the "Insights" title when it opens that
      section, and nothing otherwise. */
  lemma StepCounts(st: ParserState, line: string)
    requires Valid(st)
    ensures SectionsSize(Closed(Step(st, line))) ==
              SectionsSize(Closed(st)) + (if Blank(line) then 0 else 1)
              + (if st.current.None? && OpensImplicitly(line) then 1 else 0)
  {
    if !Blank(line) {
      TextStepCounts(st, Trim(line));
    }
  }

  /** A line with text adds one entry, plus the "Insights" title when it opens that section. */
  lemma TextStepCounts(st: ParserState, t: string)
    requires Valid(st)
    ensures SectionsSize(Closed(TextStep(st, t))) ==
              SectionsSize(Closed(st)) + 1 + (if st.current.None? && MainHeader(t).None? then 1 else 0)
  {
    match MainHeader(t)
    case Some(title) =>
      SectionsSizeSnoc(Closed(st), Section(Trim(title), [], []));
    case None =>
      match st.current
      case None =>
        SectionsSizeSnoc(st.sections, Section(InsightsTitle, [], [t]));
      case Some(sec) =>
        var r := TextStep(st, t);
        SectionsSizeSnoc(st.sections, sec);
        SectionsSizeSnoc(st.sections, r.current.value);
        SectionEntryCounts(sec, t, st.productOpen);
  }

  /** Inside a section, a product header or an item adds one entry to the section. */
  lemma SectionEntryCounts(sec: Section, t: string, productOpen: bool)
    requires productOpen ==> |sec.products| > 0
    ensures var r := TextStep(ParserState([], Some(sec), productOpen), t).current.value;
      MainHeader(t).None? ==> SectionSize(r) == SectionSize(sec) + 1
  {
    if MainHeader(t).None? {
      match ProductHeader(t)
      case Some(name) =>
        GroupsSizeSnoc(sec.products, ProductGroup(Trim(name), []));
      case None =>
        if productOpen {
          var n := |sec.products|;
          var g := sec.products[n - 1];
          assert sec.products == sec.products[..n - 1] + [g];
          GroupsSizeSnoc(sec.products[..n - 1], g);
          GroupsSizeSnoc(sec.products[..n - 1], g.(items := g.items + [ItemText(t)]));
        }
    }
  }

  /** Every non-blank line lands exactly once, as a title, a product name or an item; the only
      other entry is the "Insights" title of a section opened implicitly. */
  lemma {:induction false} EveryTextLineLandsOnce(lines: seq<string>)
    ensures SectionsSize(Closed(Run(lines))) == TextLines(lines) + (if StartsImplicitly(lines) then 1 else 0)
  {
    if lines != [] {
      var p := lines[..|lines| - 1];
      EveryTextLineLandsOnce(p);
      OpenAfterFirstText(p);
      StepCounts(Run(p), lines[|lines| - 1]);
      if StartsImplicitly(p) {
        ImplicitStartHasText(p);
      }
    }
  }

  // ---------------------------------------------------------------- the JSON path

  const Fence := "```"
  const JsonFence := "```json"

  /** `replace(/<marker>\n?/g, '')`: every occurrence of `marker`, scanned left to right, is
      removed together with a newline right after it. */
  function StripMarker(s: string, marker: string): (r: string)
    requires |marker| > 0
    ensures |r| <= |s|
    ensures !Contains(s, marker) ==> r == s
    decreases |s|
  {
    match IndexOf(s, marker)
    case None => s
    case Some(i) => s[..i] + StripMarker(AfterMarker(s, i, marker), marker)
  }

  /** What follows the marker at `i`, without the one newline right after it. */
  function AfterMarker(s: string, i: nat, marker: string): (r: string)
    requires i + |marker| <= |s|
    ensures |r| <= |s| - i - |marker|
  {
    var after := s[i + |marker|..];
    if after != [] && after[0] == '\n' then after[1..] else after
  }

  /** Three backticks start at position `j`. */
  predicate FenceAt(s: string, j: int)
  {
    0 <= j && j + 2 < |s| && s[j] == '`' && s[j + 1] == '`' && s[j + 2] == '`'
  }

  predicate NoFence(s: string)
  {
    forall j :: 0 <= j < |s| ==> !FenceAt(s, j)
  }

  lemma FenceAtIsOccurrence(s: string, j: int)
    ensures OccursAt(s, Fence, j) <==> FenceAt(s, j)
  {
    if 0 <= j && j + 3 <= |s| {
      assert s[j..j + 3] == [s[j], s[j + 1], s[j + 2]];
    }
  }

  /** No fence spans the junction of two fence-free pieces when the first does not end in '`'. */
  lemma NoFenceAcross(a: string, b: string)
    requires NoFence(a) && NoFence(b)
    requires a == [] || a[|a| - 1] != '`'
    ensures NoFence(a + b)
  {
    forall j | FenceAt(a + b, j)
      ensures false
    {
      if j + 2 < |a| {
        assert FenceAt(a, j);
      } else if j >= |a| {
        assert FenceAt(b, j - |a|);
      }
    }
  }

  /** Before the first fence there is no fence, and no backtick right in front of it. */
  lemma BeforeFirstFence(s: string, i: nat)
    requires IndexOf(s, Fence) == Some(i)
    ensures NoFence(s[..i])
    ensures i == 0 || s[i - 1] != '`'
  {
    forall j | FenceAt(s[..i], j)
      ensures false
    {
      assert FenceAt(s, j);
      FenceAtIsOccurrence(s, j);
    }
    FenceAtIsOccurrence(s, i);
    if i > 0 {
      FenceAtIsOccurrence(s, i - 1);
    }
  }

  /** Removing the fences cannot make a new one: the text before the first fence does not end
      in a backtick, or the fence would have started there. */
  lemma {:induction false} StripLeavesNoFence(s: string)
    ensures NoFence(StripMarker(s, Fence))
    decreases |s|
  {
    match IndexOf(s, Fence)
    case Some(i) =>
      var rest := AfterMarker(s, i, Fence);
      StripLeavesNoFence(rest);
      FenceFreeAfterFirst(s, i, StripMarker(rest, Fence));
    case None =>
      NoOccurrenceIsNoFence(s);
  }

  lemma FenceFreeAfterFirst(s: string, i: nat, tail: string)
    requires IndexOf(s, Fence) == Some(i) && NoFence(tail)
    ensures NoFence(s[..i] + tail)
  {
    BeforeFirstFence(s, i);
    NoFenceAcross(s[..i], tail);
  }

  lemma NoOccurrenceIsNoFence(s: string)
    requires IndexOf(s, Fence).None?
    ensures NoFence(s)
  {
    forall j | FenceAt(s, j)
      ensures false
    {
      FenceAtIsOccurrence(s, j);
    }
  }

  /** The text given to `JSON.parse`: fences stripped and trimmed, then the first-'{'-to-last-'}'
      span if there is one. */
  function CleanInsights(aiInsights: string): (r: string)
  {
    var c := Trim(StripMarker(StripMarker(aiInsights, JsonFence), Fence));
    match BraceSpan(c)
    case Some(span) => span
    case None => c
  }

  lemma NoFenceInSlice(s: string, i: nat, j: nat)
    requires i <= j <= |s| && NoFence(s)
    ensures NoFence(s[i..j])
  {
    forall k | FenceAt(s[i..j], k)
      ensures false
    {
      assert FenceAt(s, i + k);
    }
  }

  lemma NoFenceInTrim(s: string)
    requires NoFence(s)
    ensures NoFence(Trim(s))
  {
    TrimShape(s);
    var i, j :| 0 <= i <= j <= |s| && Trim(s) == s[i..j];
    NoFenceInSlice(s, i, j);
  }

  lemma NoFenceInBraceSpan(c: string)
    requires NoFence(c) && BraceSpan(c).Some?
    ensures NoFence(BraceSpan(c).value)
  {
    var a, b := FirstIndex(c, IsOpenBrace).value, LastIndexOfChar(c, '}').value;
    NoFenceInSlice(c, a, b + 1);
  }

  /** The text handed to the JSON parser holds no code fence: stripping cannot create one, and
      trimming and cutting out the brace span only take slices. */
  lemma CleanedTextHasNoFence(aiInsights: string)
    ensures NoFence(CleanInsights(aiInsights))
  {
    var s := StripMarker(StripMarker(aiInsights, JsonFence), Fence);
    StripLeavesNoFence(StripMarker(aiInsights, JsonFence));
    NoFenceInTrim(s);
    if BraceSpan(Trim(s)).Some? {
      NoFenceInBraceSpan(Trim(s));
    }
  }

  /** `JSON.parse`, with `None` for a text it throws on. */
  type JsonParser = string -> Option<Json>

  /** `Boolean(v)` on a property read (`undefined` for a missing one). */
  predicate Present(v: Option<Json>)
  {
    v.Some? && Truthy(v.value)
  }

  function Keep(v: Option<Json>): seq<Json>
  {
    if Present(v) then [v.value] else []
  }

  /** `[data.weatherImpact, data.demandPlanning, data.consumerPreferences].filter(Boolean)`. */
  function Cards(data: Json): (r: seq<Json>)
    ensures |r| <= 3 && forall i :: 0 <= i < |r| ==> Truthy(r[i])
  {
    Keep(Field(data, "weatherImpact")) + Keep(Field(data, "demandPlanning")) + Keep(Field(data, "consumerPreferences"))
  }

  /** The dashboard's guard for the structured renderer. */
  predicate UsesStructured(data: Option<Json>)
  {
    data.Some? && Truthy(data.value)
    && (Present(Field(data.value, "weatherImpact")) || Present(Field(data.value, "demandPlanning"))
        || Present(Field(data.value, "consumerPreferences")))
  }

  /** What the dashboard shows for a report. */
  datatype InsightsView =
    | NoInsights
    | Structured(cards: seq<Json>)
    | Outlined(sections: seq<Section>)
    | PlainLines(lines: seq<string>)

  function View(aiInsights: string, parse: JsonParser): (r: InsightsView)
    ensures r.NoInsights? <==> aiInsights == ""
    ensures r.Structured? <==> aiInsights != "" && UsesStructured(parse(CleanInsights(aiInsights)))
    ensures r.Structured? ==> 1 <= |r.cards| && r.cards == Cards(parse(CleanInsights(aiInsights)).value)
    ensures r.Outlined? ==> r.sections == ParseSpec(aiInsights) && r.sections != []
  {
    if aiInsights == "" then NoInsights
    else
      var data := parse(CleanInsights(aiInsights));
      if UsesStructured(data) then Structured(Cards(data.value))
      else
        var sections := ParseSpec(aiInsights);
        if sections == [] then PlainLines(Map(Filter(Split(aiInsights, Newline), NotBlank), Trim))
        else Outlined(sections)
  }

  /** The cards keep the fixed order weather, demand, consumer and skip exactly the fields that
      are missing or falsy. */
  lemma CardsInKeyOrder(data: Json)
    ensures Present(Field(data, "weatherImpact")) ==> Cards(data)[0] == data.fields["weatherImpact"]
    ensures Present(Field(data, "consumerPreferences")) ==> Cards(data)[|Cards(data)| - 1] == data.fields["consumerPreferences"]
    ensures |Cards(data)| == (if Present(Field(data, "weatherImpact")) then 1 else 0)
                             + (if Present(Field(data, "demandPlanning")) then 1 else 0)
                             + (if Present(Field(data, "consumerPreferences")) then 1 else 0)
  {
  }

  /** The plain-lines fallback never shows anything: the parser leaves no section only when every
      line is blank, and then no line survives the filter. */
  lemma PlainFallbackIsEmpty(aiInsights: string, parse: JsonParser)
    requires View(aiInsights, parse).PlainLines?
    ensures View(aiInsights, parse).lines == []
  {
    var lines := Split(aiInsights, Newline);
    EmptyIffAllBlank(lines);
  }
}
