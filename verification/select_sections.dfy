/**
 An independent description of what `Display for QueryBuilder` emits: a
 statement is a list of sections, each present or absent by its own rule and
 always taken in one fixed keyword order. The lemmas here show that the
 rendering is exactly that list joined by spaces and ended by ';', that SELECT
 and FROM always lead, and that the optional sections keep their order.
 */
module SelectSections {
  import opened Wrappers
  import opened Text
  import opened QuerySelect

  datatype Keyword =
    | SelectKw | FromKw | WhereKw | SplitKw | GroupByKw | OrderByKw
    | LimitKw | StartAtKw | FetchKw | TimeoutKw | ParallelKw

  /** The order of the sections in the SurrealQL SELECT syntax. */
  const SectionOrder: seq<Keyword> :=
    [SelectKw, FromKw, WhereKw, SplitKw, GroupByKw, OrderByKw,
     LimitKw, StartAtKw, FetchKw, TimeoutKw, ParallelKw]

  function Rank(k: Keyword): nat
  {
    match k
    case SelectKw => 0 case FromKw => 1 case WhereKw => 2 case SplitKw => 3
    case GroupByKw => 4 case OrderByKw => 5 case LimitKw => 6 case StartAtKw => 7
    case FetchKw => 8 case TimeoutKw => 9 case ParallelKw => 10
  }

  function KeywordText(k: Keyword): string
  {
    match k
    case SelectKw => "SELECT" case FromKw => "FROM" case WhereKw => "WHERE"
    case SplitKw => "SPLIT" case GroupByKw => "GROUP BY" case OrderByKw => "ORDER BY"
    case LimitKw => "LIMIT" case StartAtKw => "START AT" case FetchKw => "FETCH"
    case TimeoutKw => "TIMEOUT" case ParallelKw => "PARALLEL"
  }

  /** Whether a section is emitted: SELECT and FROM always; a list section
      when its list is non-empty; a slot section when its slot is set. */
  predicate Present(q: QueryBuilder, k: Keyword)
  {
    match k
    case SelectKw => true
    case FromKw => true
    case WhereKw => q.condition.Some?
    case SplitKw => q.split != []
    case GroupByKw => q.groupBy != []
    case OrderByKw => q.orderBy != []
    case LimitKw => q.limit.Some?
    case StartAtKw => q.start.Some?
    case FetchKw => q.fetch != []
    case TimeoutKw => q.timeout.Some?
    case ParallelKw => q.parallel
  }

  /** The text after a section's keyword. */
  function Body(q: QueryBuilder, k: Keyword): string
  {
    match k
    case SelectKw => Join(q.projections, ", ")
    case FromKw => Join(q.targets, ", ")
    case WhereKw => if q.condition.Some? then q.condition.value else ""
    case SplitKw => Join(q.split, ", ")
    case GroupByKw => Join(q.groupBy, ", ")
    case OrderByKw => Join(OrderTexts(q.orderBy), ", ")
    case LimitKw => if q.limit.Some? then Decimal(q.limit.value as nat) else ""
    case StartAtKw => if q.start.Some? then Decimal(q.start.value as nat) else ""
    case FetchKw => Join(q.fetch, ", ")
    case TimeoutKw => if q.timeout.Some? then q.timeout.value else ""
    case ParallelKw => ""
  }

  /** A section as text: its keyword, then a space and its body (PARALLEL has none). */
  function SectionText(q: QueryBuilder, k: Keyword): string
  {
    if k == ParallelKw then KeywordText(k) else KeywordText(k) + " " + Body(q, k)
  }

  /** The keywords of `ks` whose sections are present, in the order of `ks`. */
  function PresentIn(q: QueryBuilder, ks: seq<Keyword>): seq<Keyword>
  {
    if |ks| == 0 then []
    else PresentIn(q, ks[..|ks| - 1]) + (if Present(q, ks[|ks| - 1]) then [ks[|ks| - 1]] else [])
  }

  /** The sections of `q`, in statement order. */
  function Sections(q: QueryBuilder): seq<Keyword>
  {
    PresentIn(q, SectionOrder)
  }

  function SectionTexts(q: QueryBuilder, ks: seq<Keyword>): (r: seq<string>)
    ensures |r| == |ks|
    ensures forall i :: 0 <= i < |ks| ==> r[i] == SectionText(q, ks[i])
  {
    seq(|ks|, i requires 0 <= i < |ks| => SectionText(q, ks[i]))
  }

  /** The sections of `q` rendered and joined by single spaces. */
  function RenderSections(q: QueryBuilder, ks: seq<Keyword>): string
  {
    Join(SectionTexts(q, ks), " ")
  }

  /** A keyword is kept by the filter exactly when it is listed and present. */
  lemma {:induction false} PresentInMembership(q: QueryBuilder, ks: seq<Keyword>, k: Keyword)
    ensures k in PresentIn(q, ks) <==> k in ks && Present(q, k)
    decreases |ks|
  {
    if |ks| > 0 {
      var init := ks[..|ks| - 1];
      assert ks == init + [ks[|ks| - 1]];
      PresentInMembership(q, init, k);
    }
  }

  /** The filter keeps the relative order of what it keeps. */
  lemma {:induction false} PresentInOrdered(q: QueryBuilder, ks: seq<Keyword>)
    requires forall i, j :: 0 <= i < j < |ks| ==> Rank(ks[i]) < Rank(ks[j])
    ensures var ps := PresentIn(q, ks);
      forall i, j :: 0 <= i < j < |ps| ==> Rank(ps[i]) < Rank(ps[j])
    decreases |ks|
  {
    if |ks| > 0 {
      var init := ks[..|ks| - 1];
      var last := ks[|ks| - 1];
      PresentInOrdered(q, init);
      var ps := PresentIn(q, init);
      forall i | 0 <= i < |ps| ensures Rank(ps[i]) < Rank(last) {
        PresentInMembership(q, init, ps[i]);
        var j :| 0 <= j < |init| && init[j] == ps[i];
        assert ks[j] == ps[i];
      }
    }
  }

  /** A section appears exactly when its own presence rule holds: the optional
      sections are omitted when empty, SELECT and FROM never are. */
  lemma SectionPresence(q: QueryBuilder, k: Keyword)
    ensures k in Sections(q) <==> Present(q, k)
    ensures SelectKw in Sections(q) && FromKw in Sections(q)
  {
    PresentInMembership(q, SectionOrder, k);
    PresentInMembership(q, SectionOrder, SelectKw);
    PresentInMembership(q, SectionOrder, FromKw);
  }

  /** Each keyword's rank is its position in the section order. */
  lemma RanksArePositions()
    ensures |SectionOrder| == 11
    ensures forall i :: 0 <= i < |SectionOrder| ==> Rank(SectionOrder[i]) == i
  {
  }

  /** Sections come in the fixed order SELECT, FROM, WHERE, SPLIT, GROUP BY,
      ORDER BY, LIMIT, START AT, FETCH, TIMEOUT, PARALLEL, with SELECT first
      and FROM second. */
  lemma SectionsOrdered(q: QueryBuilder)
    ensures var ps := Sections(q);
      && |ps| >= 2 && ps[0] == SelectKw && ps[1] == FromKw
      && forall i, j :: 0 <= i < j < |ps| ==> Rank(ps[i]) < Rank(ps[j])
  {
    RanksArePositions();
    PresentInOrdered(q, SectionOrder);
    PresentInSnocPrefix(q, SectionOrder);
    assert PresentIn(q, SectionOrder)[..2] == PresentIn(q, [SelectKw, FromKw]);
    LeadingSections(q);
  }

  /** SELECT and FROM are always kept. */
  lemma LeadingSections(q: QueryBuilder)
    ensures PresentIn(q, [SelectKw, FromKw]) == [SelectKw, FromKw]
  {
    assert [SelectKw, FromKw][..1] == [SelectKw];
    assert [SelectKw][..0] == [];
    assert PresentIn(q, [SelectKw]) == [SelectKw];
  }

  /** Filtering a list extended at the end extends the filtered list. */
  lemma PresentInSnoc(q: QueryBuilder, ks: seq<Keyword>, kw: Keyword)
    ensures PresentIn(q, ks + [kw]) == PresentIn(q, ks) + (if Present(q, kw) then [kw] else [])
  {
    assert (ks + [kw])[..|ks|] == ks;
  }

  /** The first two filtered keywords of any list starting with SELECT, FROM. */
  lemma {:induction false} PresentInSnocPrefix(q: QueryBuilder, ks: seq<Keyword>)
    requires |ks| >= 2 && ks[..2] == [SelectKw, FromKw]
    ensures |PresentIn(q, ks)| >= 2
    ensures PresentIn(q, ks)[..2] == PresentIn(q, [SelectKw, FromKw])
    decreases |ks|
  {
    LeadingSections(q);
    if |ks| > 2 {
      var init := ks[..|ks| - 1];
      assert init[..2] == [SelectKw, FromKw];
      PresentInSnocPrefix(q, init);
      PresentInSnoc(q, init, ks[|ks| - 1]);
      assert ks == init + [ks[|ks| - 1]];
    } else {
      assert ks == [SelectKw, FromKw];
    }
  }

  /** One step of the rendering: appending a section's text after a space
      renders the filtered list one keyword longer. */
  lemma Step(q: QueryBuilder, ks: seq<Keyword>, kw: Keyword, s: string)
    requires |PresentIn(q, ks)| > 0
    requires s == RenderSections(q, PresentIn(q, ks))
    ensures |PresentIn(q, ks + [kw])| > 0
    ensures (if Present(q, kw) then s + " " + SectionText(q, kw) else s)
            == RenderSections(q, PresentIn(q, ks + [kw]))
  {
    PresentInSnoc(q, ks, kw);
    var ps := PresentIn(q, ks);
    if Present(q, kw) {
      assert SectionTexts(q, ps + [kw]) == SectionTexts(q, ps) + [SectionText(q, kw)];
      JoinSnoc(SectionTexts(q, ps), SectionText(q, kw), " ");
    } else {
      assert ps + [] == ps;
    }
  }

  /** A step in the shape the rendering writes it: the text an optional
      section pushes (" WHERE " and the condition, or nothing). */
  lemma StepWith(q: QueryBuilder, ks: seq<Keyword>, kw: Keyword, s: string, part: string)
    requires |PresentIn(q, ks)| > 0
    requires s == RenderSections(q, PresentIn(q, ks))
    requires part == if Present(q, kw) then " " + SectionText(q, kw) else ""
    ensures |PresentIn(q, ks + [kw])| > 0
    ensures s + part == RenderSections(q, PresentIn(q, ks + [kw]))
  {
    Step(q, ks, kw, s);
    AppendPart(s, Present(q, kw), SectionText(q, kw), part, RenderSections(q, PresentIn(q, ks + [kw])));
  }

  /** The string fact behind a step: pushing " " and a text is appending a
      space and that text. */
  lemma AppendPart(s: string, b: bool, t: string, part: string, r: string)
    requires r == (if b then s + " " + t else s)
    requires part == (if b then " " + t else "")
    ensures s + part == r
  {
    if !b {
      assert s + part == s;
    }
  }

  /** The text the rendering pushes for each optional section is a space and
      the section's text when the section is present, and nothing otherwise. */
  lemma WhereIsSection(q: QueryBuilder)
    ensures WherePart(q) == if Present(q, WhereKw) then " " + SectionText(q, WhereKw) else ""
  {
    assert " " + ("WHERE" + " ") == " WHERE ";
  }

  lemma SplitIsSection(q: QueryBuilder)
    ensures SplitPart(q) == if Present(q, SplitKw) then " " + SectionText(q, SplitKw) else ""
  {
    assert " " + ("SPLIT" + " ") == " SPLIT ";
  }

  lemma GroupByIsSection(q: QueryBuilder)
    ensures GroupByPart(q) == if Present(q, GroupByKw) then " " + SectionText(q, GroupByKw) else ""
  {
    assert " " + ("GROUP BY" + " ") == " GROUP BY ";
  }

  lemma OrderByIsSection(q: QueryBuilder)
    ensures OrderByPart(q) == if Present(q, OrderByKw) then " " + SectionText(q, OrderByKw) else ""
  {
    assert " " + ("ORDER BY" + " ") == " ORDER BY ";
  }

  lemma LimitIsSection(q: QueryBuilder)
    ensures LimitPart(q) == if Present(q, LimitKw) then " " + SectionText(q, LimitKw) else ""
  {
    assert " " + ("LIMIT" + " ") == " LIMIT ";
  }

  lemma StartIsSection(q: QueryBuilder)
    ensures StartPart(q) == if Present(q, StartAtKw) then " " + SectionText(q, StartAtKw) else ""
  {
    assert " " + ("START AT" + " ") == " START AT ";
  }

  lemma FetchIsSection(q: QueryBuilder)
    ensures FetchPart(q) == if Present(q, FetchKw) then " " + SectionText(q, FetchKw) else ""
  {
    assert " " + ("FETCH" + " ") == " FETCH ";
  }

  lemma TimeoutIsSection(q: QueryBuilder)
    ensures TimeoutPart(q) == if Present(q, TimeoutKw) then " " + SectionText(q, TimeoutKw) else ""
  {
    assert " " + ("TIMEOUT" + " ") == " TIMEOUT ";
  }

  lemma ParallelIsSection(q: QueryBuilder)
    ensures ParallelPart(q) == if Present(q, ParallelKw) then " " + SectionText(q, ParallelKw) else ""
  {
    assert " " + "PARALLEL" == " PARALLEL";
  }

  /** The rendering up to and including FROM. */
  function Head(q: QueryBuilder): string
  {
    "SELECT " + Join(q.projections, ", ") + " FROM " + Join(q.targets, ", ")
  }

  lemma RenderHead(q: QueryBuilder)
    ensures |PresentIn(q, [SelectKw, FromKw])| > 0
    ensures Head(q) == RenderSections(q, PresentIn(q, [SelectKw, FromKw]))
  {
    var k0 := [SelectKw, FromKw];
    LeadingSections(q);
    var a := SectionText(q, SelectKw);
    var b := SectionText(q, FromKw);
    assert SectionTexts(q, k0) == [a, b];
    JoinSnoc([a], b, " ");
    HeadText(Join(q.projections, ", "), Join(q.targets, ", "), a, b);
  }

  lemma HeadText(j: string, t: string, a: string, b: string)
    requires a == "SELECT" + " " + j && b == "FROM" + " " + t
    ensures a + " " + b == "SELECT " + j + " FROM " + t
  {
    assert "SELECT" + " " == "SELECT ";
    assert " " + ("FROM" + " ") == " FROM ";
    assert a + " " + b == "SELECT " + j + (" " + ("FROM" + " ")) + t;
  }

  /** The sections among the first `n` keywords of the order, rendered. */
  function RenderedThrough(q: QueryBuilder, n: nat): string
    requires n <= |SectionOrder|
  {
    RenderSections(q, PresentIn(q, SectionOrder[..n]))
  }

  /** Each optional section extends the rendering of those before it by the
      text the statement pushes for it. */
  lemma ThroughWhere(q: QueryBuilder)
    ensures |PresentIn(q, SectionOrder[..3])| > 0
    ensures Head(q) + WherePart(q) == RenderedThrough(q, 3)
  {
    RenderHead(q);
    assert SectionOrder[..2] == [SelectKw, FromKw];
    WhereIsSection(q);
    StepWith(q, SectionOrder[..2], WhereKw, Head(q), WherePart(q));
    assert SectionOrder[..2] + [WhereKw] == SectionOrder[..3];
  }

  lemma ThroughSplit(q: QueryBuilder)
    ensures |PresentIn(q, SectionOrder[..4])| > 0
    ensures Head(q) + WherePart(q) + SplitPart(q) == RenderedThrough(q, 4)
  {
    ThroughWhere(q);
    SplitIsSection(q);
    StepWith(q, SectionOrder[..3], SplitKw, Head(q) + WherePart(q), SplitPart(q));
    assert SectionOrder[..3] + [SplitKw] == SectionOrder[..4];
  }

  lemma ThroughGroupBy(q: QueryBuilder)
    ensures |PresentIn(q, SectionOrder[..5])| > 0
    ensures Head(q) + WherePart(q) + SplitPart(q) + GroupByPart(q) == RenderedThrough(q, 5)
  {
    ThroughSplit(q);
    GroupByIsSection(q);
    StepWith(q, SectionOrder[..4], GroupByKw, Head(q) + WherePart(q) + SplitPart(q), GroupByPart(q));
    assert SectionOrder[..4] + [GroupByKw] == SectionOrder[..5];
  }

  lemma ThroughOrderBy(q: QueryBuilder)
    ensures |PresentIn(q, SectionOrder[..6])| > 0
    ensures Head(q) + WherePart(q) + SplitPart(q) + GroupByPart(q) + OrderByPart(q) == RenderedThrough(q, 6)
  {
    ThroughGroupBy(q);
    OrderByIsSection(q);
    StepWith(q, SectionOrder[..5], OrderByKw, Head(q) + WherePart(q) + SplitPart(q) + GroupByPart(q), OrderByPart(q));
    assert SectionOrder[..5] + [OrderByKw] == SectionOrder[..6];
  }

  lemma ThroughLimit(q: QueryBuilder)
    ensures |PresentIn(q, SectionOrder[..7])| > 0
    ensures Head(q) + WherePart(q) + SplitPart(q) + GroupByPart(q) + OrderByPart(q) + LimitPart(q) == RenderedThrough(q, 7)
  {
    ThroughOrderBy(q);
    LimitIsSection(q);
    StepWith(q, SectionOrder[..6], LimitKw, Head(q) + WherePart(q) + SplitPart(q) + GroupByPart(q) + OrderByPart(q), LimitPart(q));
    assert SectionOrder[..6] + [LimitKw] == SectionOrder[..7];
  }

  lemma ThroughStart(q: QueryBuilder)
    ensures |PresentIn(q, SectionOrder[..8])| > 0
    ensures Head(q) + WherePart(q) + SplitPart(q) + GroupByPart(q) + OrderByPart(q) + LimitPart(q) + StartPart(q) == RenderedThrough(q, 8)
  {
    ThroughLimit(q);
    StartIsSection(q);
    StepWith(q, SectionOrder[..7], StartAtKw, Head(q) + WherePart(q) + SplitPart(q) + GroupByPart(q) + OrderByPart(q) + LimitPart(q), StartPart(q));
    assert SectionOrder[..7] + [StartAtKw] == SectionOrder[..8];
  }

  lemma ThroughFetch(q: QueryBuilder)
    ensures |PresentIn(q, SectionOrder[..9])| > 0
    ensures Head(q) + WherePart(q) + SplitPart(q) + GroupByPart(q) + OrderByPart(q) + LimitPart(q) + StartPart(q) + FetchPart(q) == RenderedThrough(q, 9)
  {
    ThroughStart(q);
    FetchIsSection(q);
    StepWith(q, SectionOrder[..8], FetchKw, Head(q) + WherePart(q) + SplitPart(q) + GroupByPart(q) + OrderByPart(q) + LimitPart(q) + StartPart(q), FetchPart(q));
    assert SectionOrder[..8] + [FetchKw] == SectionOrder[..9];
  }

  lemma ThroughTimeout(q: QueryBuilder)
    ensures |PresentIn(q, SectionOrder[..10])| > 0
    ensures Head(q) + WherePart(q) + SplitPart(q) + GroupByPart(q) + OrderByPart(q) + LimitPart(q) + StartPart(q) + FetchPart(q) + TimeoutPart(q) == RenderedThrough(q, 10)
  {
    ThroughFetch(q);
    TimeoutIsSection(q);
    StepWith(q, SectionOrder[..9], TimeoutKw, Head(q) + WherePart(q) + SplitPart(q) + GroupByPart(q) + OrderByPart(q) + LimitPart(q) + StartPart(q) + FetchPart(q), TimeoutPart(q));
    assert SectionOrder[..9] + [TimeoutKw] == SectionOrder[..10];
  }

  lemma ThroughParallel(q: QueryBuilder)
    ensures |PresentIn(q, SectionOrder[..11])| > 0
    ensures Head(q) + WherePart(q) + SplitPart(q) + GroupByPart(q) + OrderByPart(q) + LimitPart(q) + StartPart(q) + FetchPart(q) + TimeoutPart(q) + ParallelPart(q) == RenderedThrough(q, 11)
  {
    ThroughTimeout(q);
    ParallelIsSection(q);
    StepWith(q, SectionOrder[..10], ParallelKw, Head(q) + WherePart(q) + SplitPart(q) + GroupByPart(q) + OrderByPart(q) + LimitPart(q) + StartPart(q) + FetchPart(q) + TimeoutPart(q), ParallelPart(q));
    assert SectionOrder[..10] + [ParallelKw] == SectionOrder[..11];
  }

  /** The rendering is the statement's sections, joined by single spaces,
      followed by ';'. */
  lemma DisplaySections(q: QueryBuilder)
    ensures Display(q) == RenderSections(q, Sections(q)) + ";"
  {
    ThroughParallel(q);
    assert SectionOrder[..11] == SectionOrder;
  }

  /** Extending a string keeps its prefixes. */
  lemma PrefixExtend(a: string, b: string, p: string)
    requires |p| <= |a| && a[..|p|] == p
    ensures |a + b| >= |p| && (a + b)[..|p|] == p
  {
    assert (a + b)[..|p|] == a[..|p|];
  }

  /** Every statement starts with "SELECT " and its projections and ends with ';'. */
  lemma DisplayFrame(q: QueryBuilder)
    ensures var d := Display(q);
      && |d| > 0 && d[|d| - 1] == ';'
      && |d| >= 7 + |Join(q.projections, ", ")|
      && d[..7 + |Join(q.projections, ", ")|] == "SELECT " + Join(q.projections, ", ")
  {
    var p := "SELECT " + Join(q.projections, ", ");
    var x1 := p + " FROM ";
    PrefixExtend(p, " FROM ", p);
    var x2 := x1 + Join(q.targets, ", ");
    PrefixExtend(x1, Join(q.targets, ", "), p);
    var x3 := x2 + WherePart(q);
    PrefixExtend(x2, WherePart(q), p);
    var x4 := x3 + SplitPart(q);
    PrefixExtend(x3, SplitPart(q), p);
    var x5 := x4 + GroupByPart(q);
    PrefixExtend(x4, GroupByPart(q), p);
    var x6 := x5 + OrderByPart(q);
    PrefixExtend(x5, OrderByPart(q), p);
    var x7 := x6 + LimitPart(q);
    PrefixExtend(x6, LimitPart(q), p);
    var x8 := x7 + StartPart(q);
    PrefixExtend(x7, StartPart(q), p);
    var x9 := x8 + FetchPart(q);
    PrefixExtend(x8, FetchPart(q), p);
    var x10 := x9 + TimeoutPart(q);
    PrefixExtend(x9, TimeoutPart(q), p);
    var x11 := x10 + ParallelPart(q);
    PrefixExtend(x10, ParallelPart(q), p);
    var x12 := x11 + ";";
    PrefixExtend(x11, ";", p);
    assert Display(q) == x12;
  }
}
