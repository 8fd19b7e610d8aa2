/**
 Clauses of a graph traversal (`clause.rs`): the text that follows a node or
 an edge in a path such as `->writes[WHERE amount > $_param_00000001]->book`.
 A clause is made from a kind (all, last, index, empty, where, sub-query,
 record id, any-other-edges filter), then optionally given an arrow and a
 table or field name; it renders with `build` and carries the bindings and
 errors of what it was made from.
 */
module Clauses {
  import opened Wrappers
  import opened Text
  import opened Bindings
  import QuerySelect
  import SelectSections

  // ---------------------------------------------------- any-other-edges filter

  /** `AnyEdgeFilter`: a list of edge tables with an optional condition. */
  datatype AnyEdgeFilter = AnyEdgeFilter(
    edgeTables: seq<string>,
    condition: Option<string>,
    bindings: BindingsList,
    errors: seq<string>)

  /** `any_other_edges`: the tables, no condition, no bindings, no errors.
      The table names are written into the text as they are, not bound. */
  function AnyOtherEdges(tables: seq<string>): (r: AnyEdgeFilter)
    ensures r.edgeTables == tables && r.condition.None?
    ensures r.bindings == [] && r.errors == []
  {
    AnyEdgeFilter(tables, None, [], [])
  }

  /** `AnyEdgeFilter::where_`: the condition's bindings and errors are
      appended; its text replaces any earlier condition. */
  function EdgeWhere(e: AnyEdgeFilter, cond: Fragment): (r: AnyEdgeFilter)
    ensures r.edgeTables == e.edgeTables
    ensures r.condition == Some(cond.text)
    ensures r.bindings == e.bindings + cond.bindings
    ensures r.errors == e.errors + cond.errors
  {
    e.(condition := Some(cond.text), bindings := e.bindings + cond.bindings,
       errors := e.errors + cond.errors)
  }

  /** `build` of an `AnyEdgeFilter`: the joined tables and a space, then
      " WHERE " and the condition when there is one. */
  function EdgeFilterBuild(e: AnyEdgeFilter): string
  {
    Join(e.edgeTables, ", ") + " "
    + (if e.condition.Some? then " WHERE " + e.condition.value else "")
  }

  /** The rendering of a filtered edge list: the tables, then two spaces
      before WHERE (the separator space and the one that starts " WHERE "). */
  lemma EdgeFilterRendering(tables: seq<string>, conds: seq<Fragment>)
    requires |conds| > 0
    ensures var e := EdgeWheres(AnyOtherEdges(tables), conds);
      && EdgeFilterBuild(e) == Join(tables, ", ") + "  WHERE " + conds[|conds| - 1].text
      && e.bindings == FragmentsBindings(conds)
      && e.errors == FragmentsErrors(conds)
  {
    var e0 := AnyOtherEdges(tables);
    EdgeWheresAccumulate(e0, conds);
    var e := EdgeWheres(e0, conds);
    var j := Join(tables, ", ");
    var t := conds[|conds| - 1].text;
    assert e.edgeTables == tables && e.condition == Some(t);
    assert EdgeFilterBuild(e) == j + " " + (" WHERE " + t);
    WhereText(j, t);
    assert e.bindings == [] + FragmentsBindings(conds);
    assert e.errors == [] + FragmentsErrors(conds);
  }

  lemma WhereText(j: string, t: string)
    ensures j + " " + (" WHERE " + t) == j + "  WHERE " + t
  {
    assert " " + " WHERE " == "  WHERE ";
    AppendAssoc(j, " ", " WHERE " + t);
    AppendAssoc(" ", " WHERE ", t);
    AppendAssoc(j, "  WHERE ", t);
  }

  /** An unfiltered edge list renders as its tables and one trailing space. */
  lemma EdgeFilterUnfiltered(tables: seq<string>)
    ensures EdgeFilterBuild(AnyOtherEdges(tables)) == Join(tables, ", ") + " "
  {
    assert Join(tables, ", ") + " " + "" == Join(tables, ", ") + " ";
  }

  /** A chain of `where_` calls, first to last. */
  function EdgeWheres(e: AnyEdgeFilter, conds: seq<Fragment>): AnyEdgeFilter
    decreases |conds|
  {
    if |conds| == 0 then e else EdgeWhere(EdgeWheres(e, conds[..|conds| - 1]), conds[|conds| - 1])
  }

  function FragmentsBindings(fs: seq<Fragment>): BindingsList
    decreases |fs|
  {
    if |fs| == 0 then [] else FragmentsBindings(fs[..|fs| - 1]) + fs[|fs| - 1].bindings
  }

  function FragmentsErrors(fs: seq<Fragment>): seq<string>
    decreases |fs|
  {
    if |fs| == 0 then [] else FragmentsErrors(fs[..|fs| - 1]) + fs[|fs| - 1].errors
  }

  /** Repeated `where_` calls keep the last condition's text but the bindings
      and errors of all of them, in call order. */
  lemma {:induction false} EdgeWheresAccumulate(e: AnyEdgeFilter, conds: seq<Fragment>)
    ensures var r := EdgeWheres(e, conds);
      && r.edgeTables == e.edgeTables
      && r.condition == (if |conds| == 0 then e.condition else Some(conds[|conds| - 1].text))
      && r.bindings == e.bindings + FragmentsBindings(conds)
      && r.errors == e.errors + FragmentsErrors(conds)
    decreases |conds|
  {
    if |conds| > 0 {
      var init := conds[..|conds| - 1];
      var c := conds[|conds| - 1];
      EdgeWheresAccumulate(e, init);
      assert EdgeWheres(e, conds) == EdgeWhere(EdgeWheres(e, init), c);
      assert FragmentsBindings(conds) == FragmentsBindings(init) + c.bindings;
      assert FragmentsErrors(conds) == FragmentsErrors(init) + c.errors;
      AppendAssoc(e.bindings, FragmentsBindings(init), c.bindings);
      AppendAssoc(e.errors, FragmentsErrors(init), c.errors);
    } else {
      assert e.bindings + [] == e.bindings;
      assert e.errors + [] == e.errors;
    }
  }

  // ---------------------------------------------------------------- Clause

  /** `ClauseType`. A where filter, a sub-query and an index are given by
      their rendered text, bindings and errors; a record id by its text. */
  datatype ClauseKind =
    | All
    | Last
    | Index(index: Fragment)
    | Empty
    | Where(filter: Fragment)
    | Query(statement: Fragment)
    | Id(id: string)
    | AnyEdge(edge: AnyEdgeFilter)

  /** `ModelOrFieldName`. */
  datatype Name = Model(model: string) | FieldName(field: string)

  datatype Clause = Clause(
    kind: ClauseKind,
    arrow: Option<string>,
    name: Option<Name>,
    queryString: string,
    bindings: BindingsList,
    errors: seq<string>)

  /** The placeholder error an id clause starts with, until a table is given. */
  const IdSentinelError: string := "lowo aaaa"

  /** The error for an id that does not belong to the table it is used with. */
  function IdMismatchError(id: string, table: string): string
  {
    "invalid id " + id + ". Id does not belong to table " + table
  }

  /** `Clause::new`. Only a record id draws a binding from the counter. */
  function NewClause(kind: ClauseKind, a: Allocator): (r: Allocated<Clause>)
    ensures r.value.kind == kind && r.value.arrow.None? && r.value.name.None?
    ensures r.alloc.next == if kind.Id? then a.next + 1 else a.next
    ensures kind.Id? ==>
      && r.value.bindings == [Binding(a.next, RecordId(kind.id))]
      && r.value.errors == [IdSentinelError]
      && r.value.queryString == Dollarised(Binding(a.next, RecordId(kind.id)))
    ensures kind.Where? ==>
      r.value.bindings == kind.filter.bindings && r.value.errors == kind.filter.errors
    ensures kind.Query? ==>
      r.value.bindings == kind.statement.bindings && r.value.errors == kind.statement.errors
    ensures kind.Index? ==> r.value.bindings == kind.index.bindings && r.value.errors == []
    ensures kind.AnyEdge? ==>
      r.value.bindings == kind.edge.bindings && r.value.errors == kind.edge.errors
    ensures (kind.All? || kind.Last? || kind.Empty?) ==>
      r.value.bindings == [] && r.value.errors == []
  {
    match kind
    case Empty => Allocated(Clause(kind, None, None, "", [], []), a)
    case Where(f) =>
      Allocated(Clause(kind, None, None, "[WHERE " + f.text + "]", f.bindings, f.errors), a)
    case Id(id) =>
      var b := NewBinding(RecordId(id), a);
      Allocated(Clause(kind, None, None, Dollarised(b.value), [b.value], [IdSentinelError]), b.alloc)
    case Query(st) =>
      var text := "(" + TrimEndMatches(st.text, ';') + ")";
      Allocated(Clause(kind, None, None, text, st.bindings, st.errors), a)
    case All => Allocated(Clause(kind, None, None, "[*]", [], []), a)
    case Last => Allocated(Clause(kind, None, None, "[$]", [], []), a)
    case Index(ix) => Allocated(Clause(kind, None, None, ix.text, ix.bindings, []), a)
    case AnyEdge(e) =>
      Allocated(Clause(kind, None, None, "(" + EdgeFilterBuild(e) + ")", e.bindings, e.errors), a)
  }

  /** The connection name a clause renders with: the table or field name,
      or nothing. */
  function NameText(n: Option<Name>): string
  {
    match n
    case None => ""
    case Some(Model(m)) => m
    case Some(FieldName(f)) => f
  }

  function ArrowText(arrow: Option<string>): string
  {
    if arrow.Some? then arrow.value else ""
  }

  /** The precondition of `build`: an id clause renders its last binding, and
      the source stops with a panic when there is none. */
  predicate Buildable(c: Clause)
  {
    c.kind.Id? ==> |c.bindings| > 0
  }

  /** `build`: the arrow (if any), then the clause body. A sub-query renders
      its own text and an id its placeholder, both ignoring the name; an
      edge filter is parenthesised together with the name; every other kind
      is the name followed by its text. */
  function Build(c: Clause): string
    requires Buildable(c)
  {
    var name := NameText(c.name);
    var body :=
      match c.kind
      case Query(_) => c.queryString
      case AnyEdge(e) => "(" + name + ", " + EdgeFilterBuild(e) + ")"
      case Id(_) => Dollarised(c.bindings[|c.bindings| - 1])
      case _ => name + c.queryString;
    ArrowText(c.arrow) + body
  }

  /** `with_arrow`. */
  function WithArrow(c: Clause, arrow: string): (r: Clause)
    ensures r.arrow == Some(arrow)
    ensures r.kind == c.kind && r.name == c.name && r.queryString == c.queryString
    ensures r.bindings == c.bindings && r.errors == c.errors
  {
    c.(arrow := Some(arrow))
  }

  /** `update_errors`: the error list is replaced, not extended. For an id
      clause it becomes the mismatch error when the id is not of the table
      and empty otherwise; for every other kind it becomes empty. */
  function UpdateErrors(c: Clause, table: string): (r: Clause)
    ensures r.kind == c.kind && r.arrow == c.arrow && r.name == c.name
    ensures r.queryString == c.queryString && r.bindings == c.bindings
    ensures r.errors == [] <==> !c.kind.Id? || StartsWith(c.kind.id, table + ":")
    ensures |r.errors| <= 1
  {
    var errors :=
      if c.kind.Id? && !StartsWith(c.kind.id, table + ":") then [IdMismatchError(c.kind.id, table)]
      else [];
    c.(errors := errors)
  }

  /** `with_table`: checks an id against the table and names the clause
      after the table. */
  function WithTable(c: Clause, table: string): (r: Clause)
    ensures r.name == Some(Model(table))
    ensures r.kind == c.kind && r.arrow == c.arrow
    ensures r.queryString == c.queryString && r.bindings == c.bindings
    ensures r.errors == [] <==> !c.kind.Id? || StartsWith(c.kind.id, table + ":")
    ensures r.errors != [] ==> r.errors == [IdMismatchError(c.kind.id, table)]
  {
    UpdateErrors(c, table).(name := Some(Model(table)))
  }

  /** `with_field`: names the clause after a field; errors are left as
      they are. */
  function WithField(c: Clause, field: string): (r: Clause)
    ensures r.name == Some(FieldName(field))
    ensures r.kind == c.kind && r.arrow == c.arrow && r.queryString == c.queryString
    ensures r.bindings == c.bindings && r.errors == c.errors
  {
    c.(name := Some(FieldName(field)))
  }

  // ------------------------------------------------------------- modifiers

  /** One of the calls that decorate a clause after it is made. */
  datatype Modifier = ArrowMod(arrow: string) | TableMod(table: string) | FieldMod(field: string)

  function Modify(c: Clause, m: Modifier): Clause
  {
    match m
    case ArrowMod(ar) => WithArrow(c, ar)
    case TableMod(t) => WithTable(c, t)
    case FieldMod(f) => WithField(c, f)
  }

  /** A chain of modifiers, first to last. */
  function ModifyAll(c: Clause, ms: seq<Modifier>): Clause
    decreases |ms|
  {
    if |ms| == 0 then c else Modify(ModifyAll(c, ms[..|ms| - 1]), ms[|ms| - 1])
  }

  /** The arrow after a chain: the last one set, else the clause's own. */
  function LastArrow(ms: seq<Modifier>, initial: Option<string>): Option<string>
    decreases |ms|
  {
    if |ms| == 0 then initial
    else if ms[|ms| - 1].ArrowMod? then Some(ms[|ms| - 1].arrow)
    else LastArrow(ms[..|ms| - 1], initial)
  }

  /** The name after a chain: the last table or field set, else the clause's own. */
  function LastName(ms: seq<Modifier>, initial: Option<Name>): Option<Name>
    decreases |ms|
  {
    if |ms| == 0 then initial
    else if ms[|ms| - 1].TableMod? then Some(Model(ms[|ms| - 1].table))
    else if ms[|ms| - 1].FieldMod? then Some(FieldName(ms[|ms| - 1].field))
    else LastName(ms[..|ms| - 1], initial)
  }

  /** The errors after a chain: fixed by the last table given, if any
      (`with_table` replaces the list); untouched otherwise. */
  function LastTableErrors(kind: ClauseKind, ms: seq<Modifier>, initial: seq<string>): seq<string>
    decreases |ms|
  {
    if |ms| == 0 then initial
    else if ms[|ms| - 1].TableMod? then
      (if kind.Id? && !StartsWith(kind.id, ms[|ms| - 1].table + ":")
       then [IdMismatchError(kind.id, ms[|ms| - 1].table)] else [])
    else LastTableErrors(kind, ms[..|ms| - 1], initial)
  }

  /** Decorating a clause never changes what it is made of: the kind, the
      text and the bindings stay; the arrow and the name are the last ones
      set; the errors are those of the last table check, or the original
      ones when no table was given. */
  lemma {:induction false} ModifyAllKeeps(c: Clause, ms: seq<Modifier>)
    ensures var r := ModifyAll(c, ms);
      && r.kind == c.kind && r.queryString == c.queryString && r.bindings == c.bindings
      && r.arrow == LastArrow(ms, c.arrow)
      && r.name == LastName(ms, c.name)
      && r.errors == LastTableErrors(c.kind, ms, c.errors)
    decreases |ms|
  {
    if |ms| > 0 {
      ModifyAllKeeps(c, ms[..|ms| - 1]);
    }
  }

  /** What a clause made from `kind` with counter `a` and then decorated
      renders as, stated from the kind's own payload: the arrow, then for a
      sub-query its text without trailing ';' in parentheses, for an id the
      placeholder of the binding it drew, for an edge filter the name and
      the filter in parentheses, and otherwise the name followed by the
      kind's fixed or given text. */
  function Rendered(kind: ClauseKind, a: Allocator, arrow: Option<string>, name: Option<Name>): string
  {
    var n := NameText(name);
    ArrowText(arrow) +
      match kind
      case All => n + "[*]"
      case Last => n + "[$]"
      case Empty => n
      case Index(ix) => n + ix.text
      case Where(f) => n + "[WHERE " + f.text + "]"
      case Query(st) => "(" + TrimEndMatches(st.text, ';') + ")"
      case Id(id) => Dollarised(Binding(a.next, RecordId(id)))
      case AnyEdge(e) => "(" + n + ", " + EdgeFilterBuild(e) + ")"
  }

  /** A clause renders as its kind's payload dictates, whatever chain of
      arrows, tables and fields it was decorated with. */
  lemma BuildDecorated(kind: ClauseKind, a: Allocator, ms: seq<Modifier>)
    ensures var c := ModifyAll(NewClause(kind, a).value, ms);
      && Buildable(c)
      && Build(c) == Rendered(kind, a, LastArrow(ms, None), LastName(ms, None))
  {
    var c0 := NewClause(kind, a).value;
    ModifyAllKeeps(c0, ms);
    var c := ModifyAll(c0, ms);
    if kind.Where? {
      assert NameText(c.name) + ("[WHERE " + kind.filter.text + "]")
          == NameText(c.name) + "[WHERE " + kind.filter.text + "]";
    }
  }

  /** An id clause: one fresh binding of the record id, the placeholder
      error until a table is given, and the placeholder as its text whatever
      name it is given. A matching table clears the errors, another table
      leaves exactly the mismatch error. */
  lemma IdClause(id: string, a: Allocator, table: string)
    ensures var c := NewClause(Id(id), a).value;
      && c.bindings == [Binding(a.next, RecordId(id))]
      && c.errors == [IdSentinelError]
      && Build(c) == Dollarised(Binding(a.next, RecordId(id)))
      && Build(WithTable(c, table)) == Build(c)
      && (WithTable(c, table).errors == [] <==> StartsWith(id, table + ":"))
      && (!StartsWith(id, table + ":") ==>
            WithTable(c, table).errors == [IdMismatchError(id, table)])
  {
  }

  /** A sub-query clause of a text starting "SELECT " keeps that start and
      loses every trailing ';'. */
  lemma TrimmedSelect(d: string, bs: BindingsList, a: Allocator)
    requires |d| >= 7 && d[..7] == "SELECT "
    ensures var t := Build(NewClause(Query(Fragment(d, bs, [])), a).value);
      && |t| >= 9 && t[..8] == "(SELECT " && t[|t| - 1] == ')' && t[|t| - 2] != ';'
  {
    var r := TrimEndMatches(d, ';');
    assert d[6] == ' ';
    assert |r| >= 7;
    assert r[..7] == d[..7];
    var t := "(" + r + ")";
    assert t[..8] == "(" + r[..7];
    var c := NewClause(Query(Fragment(d, bs, [])), a).value;
    assert Build(c) == "" + t;
  }

  /** A sub-query clause made from a SELECT statement drops the statement's
      closing ';' (and any others before it) inside the parentheses: it
      renders as "(SELECT " and the rest of the statement, closed by ')'
      with no ';' right before it. */
  lemma SubQueryClause(qb: QuerySelect.QueryBuilder, a: Allocator)
    ensures var t := Build(NewClause(Query(Fragment(QuerySelect.Display(qb), qb.bindings, [])), a).value);
      && |t| >= 9 && t[..8] == "(SELECT " && t[|t| - 1] == ')' && t[|t| - 2] != ';'
  {
    var d := QuerySelect.Display(qb);
    SelectSections.DisplayFrame(qb);
    var n := 7 + |Join(qb.projections, ", ")|;
    assert d[..7] == d[..n][..7];
    TrimmedSelect(d, qb.bindings, a);
  }

  // --------------------------------------------------------------- wrappers

  /** `NodeClause`: a clause after a node; arrow, table and field may be set. */
  datatype NodeClause = NodeClause(clause: Clause)

  /** `EdgeClause`: a clause after an edge; only arrow and table may be set. */
  datatype EdgeClause = EdgeClause(clause: Clause)

  /** `ObjectClause`: a clause after an object; arrow, table and field may be set. */
  datatype ObjectClause = ObjectClause(clause: Clause)

  datatype EdgeModifier = EdgeArrow(arrow: string) | EdgeTable(table: string)

  /** The general modifier an edge modifier stands for. */
  function EdgeModifierOf(m: EdgeModifier): Modifier
  {
    match m
    case EdgeArrow(ar) => ArrowMod(ar)
    case EdgeTable(t) => TableMod(t)
  }

  function NodeModify(n: NodeClause, m: Modifier): NodeClause
  {
    NodeClause(Modify(n.clause, m))
  }

  function EdgeModify(e: EdgeClause, m: EdgeModifier): EdgeClause
  {
    EdgeClause(Modify(e.clause, EdgeModifierOf(m)))
  }

  function ObjectModify(o: ObjectClause, m: Modifier): ObjectClause
  {
    ObjectClause(Modify(o.clause, m))
  }

  /** `From<SurrealId> for NodeClause`: an id clause. */
  function NodeFromId(id: string, a: Allocator): (r: Allocated<NodeClause>)
    ensures r.value.clause.bindings == [Binding(a.next, RecordId(id))]
    ensures Buildable(r.value.clause)
    ensures Build(r.value.clause) == Dollarised(Binding(a.next, RecordId(id)))
    ensures r.alloc.next == a.next + 1
  {
    var c := NewClause(Id(id), a);
    assert Build(c.value) == ArrowText(c.value.arrow) + Dollarised(c.value.bindings[0]);
    Allocated(NodeClause(c.value), c.alloc)
  }

  /** `From<AnyEdgeFilter> for EdgeClause`: an unnamed edge-filter clause,
      rendered with an empty name before the comma. */
  function EdgeFromFilter(e: AnyEdgeFilter, a: Allocator): (r: Allocated<EdgeClause>)
    ensures Buildable(r.value.clause)
    ensures Build(r.value.clause) == "(, " + EdgeFilterBuild(e) + ")"
    ensures r.value.clause.bindings == e.bindings && r.value.clause.errors == e.errors
    ensures r.alloc == a
  {
    var c := NewClause(AnyEdge(e), a);
    Allocated(EdgeClause(c.value), c.alloc)
  }

  /** The wrappers only delegate: a node, edge or object clause decorated by
      a chain renders, binds and errs exactly like the bare clause decorated
      by the same chain; an edge clause cannot be given a field name. */
  lemma {:induction false} WrappersDelegate(c: Clause, ms: seq<Modifier>, es: seq<EdgeModifier>)
    ensures NodeModifyAll(NodeClause(c), ms).clause == ModifyAll(c, ms)
    ensures ObjectModifyAll(ObjectClause(c), ms).clause == ModifyAll(c, ms)
    ensures EdgeModifyAll(EdgeClause(c), es).clause == ModifyAll(c, EdgeModifiers(es))
    ensures forall i :: 0 <= i < |EdgeModifiers(es)| ==> !EdgeModifiers(es)[i].FieldMod?
    decreases |ms| + |es|
  {
    if |ms| > 0 {
      WrappersDelegate(c, ms[..|ms| - 1], es);
    }
    if |es| > 0 {
      WrappersDelegate(c, ms, es[..|es| - 1]);
      assert EdgeModifiers(es)[..|es| - 1] == EdgeModifiers(es[..|es| - 1]);
    }
  }

  function NodeModifyAll(n: NodeClause, ms: seq<Modifier>): NodeClause
    decreases |ms|
  {
    if |ms| == 0 then n else NodeModify(NodeModifyAll(n, ms[..|ms| - 1]), ms[|ms| - 1])
  }

  function ObjectModifyAll(o: ObjectClause, ms: seq<Modifier>): ObjectClause
    decreases |ms|
  {
    if |ms| == 0 then o else ObjectModify(ObjectModifyAll(o, ms[..|ms| - 1]), ms[|ms| - 1])
  }

  function EdgeModifyAll(e: EdgeClause, ms: seq<EdgeModifier>): EdgeClause
    decreases |ms|
  {
    if |ms| == 0 then e else EdgeModify(EdgeModifyAll(e, ms[..|ms| - 1]), ms[|ms| - 1])
  }

  function EdgeModifiers(ms: seq<EdgeModifier>): (r: seq<Modifier>)
    ensures |r| == |ms|
    ensures forall i :: 0 <= i < |ms| ==> r[i] == EdgeModifierOf(ms[i])
  {
    seq(|ms|, i requires 0 <= i < |ms| => EdgeModifierOf(ms[i]))
  }
}
