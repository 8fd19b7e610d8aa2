/**
 The SELECT statement assembler of `surrealdb-macros` (`query_select.rs`):
 order specs, the target/group/split/order normalisers, the `QueryBuilder`
 record with its builder calls, and the rendering of the statement.

 The Rust builder mutates `&mut self`; here each call is a pure function from
 the old builder to the new one. Calls that make bindings also take and return
 the binding counter.
 */
module QuerySelect {
  import opened Wrappers
  import opened Text
  import opened Bindings

  /** Rust's `u64`, the type of the LIMIT and START values. */
  newtype u64 = x: int | 0 <= x < 0x1_0000_0000_0000_0000

  // ---------------------------------------------------------------- Order

  datatype Direction = Asc | Desc

  datatype OrderOption = Rand | Collate | Numeric

  /** An order spec: a field, an optional direction, an optional option. */
  datatype Order = Order(field: Fragment, direction: Option<Direction>, option: Option<OrderOption>)

  /** `Order::new`: neither direction nor option is set. */
  function OrderNew(field: Fragment): (r: Order)
    ensures r.field == field
    ensures OrderText(r) == field.text + "  ASC"
  {
    Order(field, None, None)
  }

  /** `asc`: sets the direction to ascending. */
  function OrderAsc(o: Order): (r: Order)
    ensures r.direction == Some(Asc)
    ensures r.field == o.field && r.option == o.option
    ensures OrderText(r)[|OrderText(r)| - 3..] == "ASC"
  {
    o.(direction := Some(Asc))
  }

  /** `desc`: sets the direction to descending. */
  function OrderDesc(o: Order): (r: Order)
    ensures r.direction == Some(Desc)
    ensures r.field == o.field && r.option == o.option
    ensures OrderText(r)[|OrderText(r)| - 4..] == "DESC"
  {
    o.(direction := Some(Desc))
  }

  /** `rand`: sets the option to random ordering. */
  function OrderRand(o: Order): (r: Order)
    ensures r.option == Some(Rand)
    ensures r.field == o.field && r.direction == o.direction
  {
    o.(option := Some(Rand))
  }

  /** `collate`: sets the option to collation-aware ordering. */
  function OrderCollate(o: Order): (r: Order)
    ensures r.option == Some(Collate)
    ensures r.field == o.field && r.direction == o.direction
  {
    o.(option := Some(Collate))
  }

  /** `numeric`: sets the option to numeric ordering. */
  function OrderNumeric(o: Order): (r: Order)
    ensures r.option == Some(Numeric)
    ensures r.field == o.field && r.direction == o.direction
  {
    o.(option := Some(Numeric))
  }

  function DirectionText(d: Direction): string
  {
    match d
    case Asc => "ASC"
    case Desc => "DESC"
  }

  function OptionText(o: OrderOption): string
  {
    match o
    case Rand => "RAND()"
    case Collate => "COLLATE"
    case Numeric => "NUMERIC"
  }

  /** `Display for &Order`: field, option token (empty when unset), direction
      (ASC when unset), separated by single spaces. */
  function OrderText(o: Order): string
  {
    o.field.text + " "
    + (match o.option case None => "" case Some(op) => OptionText(op)) + " "
    + DirectionText(match o.direction case None => Asc case Some(d) => d)
  }

  /** `Parametric for Order`: the bindings of the ordered field. */
  function OrderBindings(o: Order): BindingsList
  {
    o.field.bindings
  }

  /** `Parametric for Vec<Order>`: the field bindings of every order, in order. */
  function OrdersBindings(os: seq<Order>): (r: BindingsList)
    ensures |os| == 0 ==> r == []
    ensures |os| == 1 ==> r == os[0].field.bindings
  {
    if |os| == 0 then []
    else
      assert |os| == 1 ==> os[..0] == [];
      OrdersBindings(os[..|os| - 1]) + OrderBindings(os[|os| - 1])
  }

  /** The bindings of two order lists one after the other are the first
      list's followed by the second's, so every order's field bindings appear
      once, in list order. */
  lemma {:induction false} OrdersBindingsAppend(xs: seq<Order>, ys: seq<Order>)
    ensures OrdersBindings(xs + ys) == OrdersBindings(xs) + OrdersBindings(ys)
    decreases |ys|
  {
    if |ys| == 0 {
      assert xs + ys == xs;
    } else {
      var init := ys[..|ys| - 1];
      var last := ys[|ys| - 1];
      OrdersBindingsAppend(xs, init);
      assert (xs + ys)[..|xs + ys| - 1] == xs + init;
      assert (xs + ys)[|xs + ys| - 1] == last;
      AppendAssoc(OrdersBindings(xs), OrdersBindings(init), OrderBindings(last));
    }
  }

  // ------------------------------------------------------------ normalisers

  datatype Orderables = SingleOrder(order: Order) | OrdersList(orders: seq<Order>)

  /** `From<Orderables> for Vec<Order>`. */
  function OrderablesList(o: Orderables): (r: seq<Order>)
    ensures o.SingleOrder? ==> r == [o.order]
    ensures o.OrdersList? ==> r == o.orders
  {
    match o
    case SingleOrder(x) => [x]
    case OrdersList(xs) => xs
  }

  /** `Parametric for Orderables`. */
  function OrderablesBindings(o: Orderables): (r: BindingsList)
    ensures r == OrdersBindings(OrderablesList(o))
  {
    match o
    case SingleOrder(x) =>
      assert [x][..0] == [];
      OrderBindings(x)
    case OrdersList(xs) => OrdersBindings(xs)
  }

  datatype Groupables = GroupField(field: Fragment) | GroupFields(fields: seq<Fragment>)

  datatype Splittables = SplitField(field: Fragment) | SplitFields(fields: seq<Fragment>)

  function GroupablesList(g: Groupables): seq<Fragment>
  {
    match g
    case GroupField(f) => [f]
    case GroupFields(fs) => fs
  }

  function SplittablesList(s: Splittables): seq<Fragment>
  {
    match s
    case SplitField(f) => [f]
    case SplitFields(fs) => fs
  }

  /** `Parametric for Groupables`: fields are rendered by name, never bound. */
  function GroupablesBindings(g: Groupables): (r: BindingsList)
    ensures r == []
  {
    []
  }

  /** `Parametric for Splittables`: fields are rendered by name, never bound. */
  function SplittablesBindings(s: Splittables): (r: BindingsList)
    ensures r == []
  {
    []
  }

  /** The rendered names of a list of fields. */
  function Texts(fs: seq<Fragment>): (r: seq<string>)
    ensures |r| == |fs|
    ensures forall i :: 0 <= i < |fs| ==> r[i] == fs[i].text
  {
    seq(|fs|, i requires 0 <= i < |fs| => fs[i].text)
  }

  /** What a SELECT reads from: table names and record ids (bound as data) or
      an already built sub-query (spliced in as text). */
  datatype Targettables =
    | Table(name: string)
    | Tables(names: seq<string>)
    | SurrealId(id: string)
    | SurrealIds(ids: seq<string>)
    | SubQuery(query: QueryBuilder)

  function TableValues(names: seq<string>): (r: seq<Value>)
    ensures |r| == |names|
    ensures forall i :: 0 <= i < |names| ==> r[i] == TableName(names[i])
  {
    seq(|names|, i requires 0 <= i < |names| => TableName(names[i]))
  }

  function IdValues(ids: seq<string>): (r: seq<Value>)
    ensures |r| == |ids|
    ensures forall i :: 0 <= i < |ids| ==> r[i] == RecordId(ids[i])
  {
    seq(|ids|, i requires 0 <= i < |ids| => RecordId(ids[i]))
  }

  /** `Parametric for Targettables`: every table name and record id gets a
      fresh binding, in input order; a sub-query contributes exactly the
      bindings it has already accumulated and uses no new ones. */
  function TargetBindings(t: Targettables, a: Allocator): (r: Allocated<BindingsList>)
    ensures t.Table? ==>
      r.value == [Binding(a.next, TableName(t.name))] && r.alloc.next == a.next + 1
    ensures t.SurrealId? ==>
      r.value == [Binding(a.next, RecordId(t.id))] && r.alloc.next == a.next + 1
    ensures t.Tables? ==>
      && |r.value| == |t.names| && r.alloc.next == a.next + |t.names|
      && forall i :: 0 <= i < |t.names| ==> r.value[i] == Binding(a.next + i, TableName(t.names[i]))
    ensures t.SurrealIds? ==>
      && |r.value| == |t.ids| && r.alloc.next == a.next + |t.ids|
      && forall i :: 0 <= i < |t.ids| ==> r.value[i] == Binding(a.next + i, RecordId(t.ids[i]))
    ensures t.SubQuery? ==> r.value == t.query.bindings && r.alloc == a
  {
    match t
    case Table(name) =>
      var b := NewBinding(TableName(name), a);
      Allocated([b.value], b.alloc)
    case Tables(names) => AllocMany(TableValues(names), a)
    case SubQuery(query) => Allocated(GetBindings(query), a)
    case SurrealId(id) =>
      var b := NewBinding(RecordId(id), a);
      Allocated([b.value], b.alloc)
    case SurrealIds(ids) => AllocMany(IdValues(ids), a)
  }

  /** The bare parameter names of a list of bindings (`get_param`). */
  function Params(bs: BindingsList): (r: seq<string>)
    ensures |r| == |bs|
    ensures forall i :: 0 <= i < |bs| ==> r[i] == Param(bs[i])
  {
    seq(|bs|, i requires 0 <= i < |bs| => Param(bs[i]))
  }

  // ----------------------------------------------------------- QueryBuilder

  /** The SELECT statement under construction. Every list only grows; the
      condition, limit, start and timeout slots are overwritten; `bindings`
      is the accumulator every binding-producing call appends to. */
  datatype QueryBuilder = QueryBuilder(
    projections: seq<string>,
    targets: seq<string>,
    condition: Option<string>,
    split: seq<string>,
    groupBy: seq<string>,
    orderBy: seq<Order>,
    limit: Option<u64>,
    start: Option<u64>,
    fetch: seq<string>,
    timeout: Option<string>,
    parallel: bool,
    bindings: BindingsList)

  /** `QueryBuilder::new`: everything empty; renders with empty lists. */
  function New(): (r: QueryBuilder)
    ensures r.bindings == []
    ensures Display(r) == "SELECT  FROM ;"
  {
    QueryBuilder([], [], None, [], [], [], None, None, [], None, false, [])
  }

  /** `Parametric for QueryBuilder`: the accumulated bindings. */
  function GetBindings(q: QueryBuilder): BindingsList
  {
    q.bindings
  }

  function SelectAll(q: QueryBuilder): (r: QueryBuilder)
    ensures r.projections == q.projections + ["*"]
    ensures r.bindings == q.bindings
  {
    q.(projections := q.projections + ["*"])
  }

  /** `select`: projects one field by its rendered name; the field's bindings
      are not added. */
  function Select(q: QueryBuilder, field: Fragment): (r: QueryBuilder)
    ensures r.projections == q.projections + [field.text]
    ensures r.bindings == q.bindings
  {
    q.(projections := q.projections + [field.text])
  }

  function SelectMany(q: QueryBuilder, fields: seq<Fragment>): (r: QueryBuilder)
    ensures r.projections == q.projections + Texts(fields)
    ensures r.bindings == q.bindings
  {
    q.(projections := q.projections + Texts(fields))
  }

  /** The target strings `from` appends: one placeholder name per binding for
      tables and ids; the parenthesised sub-query text, `;` included, for a
      sub-query. */
  function TargetNames(t: Targettables, bs: BindingsList): seq<string>
  {
    match t
    case SubQuery(sub) => ["(" + Display(sub) + ")"]
    case _ => Params(bs)
  }

  /** `from`: the target bindings are appended to the accumulator and the
      matching target strings to `targets`. */
  function From(q: QueryBuilder, t: Targettables, a: Allocator): (r: Allocated<QueryBuilder>)
    ensures r.value.bindings == q.bindings + TargetBindings(t, a).value
    ensures r.alloc == TargetBindings(t, a).alloc
    ensures !t.SubQuery? ==>
      var added := TargetBindings(t, a).value;
      && |r.value.targets| == |q.targets| + |added|
      && r.value.targets[..|q.targets|] == q.targets
      && forall i :: 0 <= i < |added| ==> r.value.targets[|q.targets| + i] == Param(added[i])
    ensures t.SubQuery? ==> r.value.targets == q.targets + ["(" + Display(t.query) + ")"]
    ensures r.value.projections == q.projections && r.value.condition == q.condition
    ensures r.value == q.(targets := r.value.targets, bindings := r.value.bindings)
  {
    var tb := TargetBindings(t, a);
    var names := TargetNames(t, tb.value);
    var q' := UpdateBindings(q, tb.value);
    Allocated(q'.(targets := q'.targets + names), tb.alloc)
  }

  /** `where_`: the condition text replaces the previous one, while the
      condition's bindings are appended to the accumulator. */
  function Where(q: QueryBuilder, cond: Fragment): (r: QueryBuilder)
    ensures r.condition == Some(cond.text)
    ensures r.bindings == q.bindings + cond.bindings
  {
    UpdateBindings(q, cond.bindings).(condition := Some(cond.text))
  }

  /** `update_bindings`: extends the accumulator. */
  function UpdateBindings(q: QueryBuilder, bs: BindingsList): (r: QueryBuilder)
    ensures |r.bindings| == |q.bindings| + |bs|
    ensures r.bindings[..|q.bindings|] == q.bindings
    ensures r.bindings[|q.bindings|..] == bs
  {
    q.(bindings := q.bindings + bs)
  }

  function Split(q: QueryBuilder, s: Splittables): (r: QueryBuilder)
    ensures r.split == q.split + Texts(SplittablesList(s))
    ensures r.bindings == q.bindings
  {
    var q' := UpdateBindings(q, SplittablesBindings(s));
    q'.(split := q'.split + Texts(SplittablesList(s)))
  }

  function GroupBy(q: QueryBuilder, g: Groupables): (r: QueryBuilder)
    ensures r.groupBy == q.groupBy + Texts(GroupablesList(g))
    ensures r.bindings == q.bindings
  {
    var q' := UpdateBindings(q, GroupablesBindings(g));
    q'.(groupBy := q'.groupBy + Texts(GroupablesList(g)))
  }

  /** `order_by`: repeated calls accumulate; the ordered fields' bindings are
      appended in order. */
  function OrderBy(q: QueryBuilder, o: Orderables): (r: QueryBuilder)
    ensures r.orderBy == q.orderBy + OrderablesList(o)
    ensures r.bindings == q.bindings + OrdersBindings(OrderablesList(o))
  {
    var q' := UpdateBindings(q, OrderablesBindings(o));
    q'.(orderBy := q'.orderBy + OrderablesList(o))
  }

  function Limit(q: QueryBuilder, n: u64): (r: QueryBuilder)
    ensures r.limit == Some(n)
  {
    q.(limit := Some(n))
  }

  function Start(q: QueryBuilder, n: u64): (r: QueryBuilder)
    ensures r.start == Some(n)
  {
    q.(start := Some(n))
  }

  function Fetch(q: QueryBuilder, field: Fragment): (r: QueryBuilder)
    ensures r.fetch == q.fetch + [field.text]
    ensures r.bindings == q.bindings
  {
    q.(fetch := q.fetch + [field.text])
  }

  function FetchMany(q: QueryBuilder, fields: seq<Fragment>): (r: QueryBuilder)
    ensures r.fetch == q.fetch + Texts(fields)
    ensures r.bindings == q.bindings
  {
    q.(fetch := q.fetch + Texts(fields))
  }

  function Timeout(q: QueryBuilder, duration: string): (r: QueryBuilder)
    ensures r.timeout == Some(duration)
  {
    q.(timeout := Some(duration))
  }

  function Parallel(q: QueryBuilder): (r: QueryBuilder)
    ensures r.parallel
  {
    q.(parallel := true)
  }

  /** `Display for QueryBuilder`: the sections in their fixed order, empty
      optional sections left out, lists joined with ", ", ended by ';'. Each
      optional section is the text its `if` block pushes, or "". */
  function Display(q: QueryBuilder): string
  {
    "SELECT " + Join(q.projections, ", ") + " FROM " + Join(q.targets, ", ")
    + WherePart(q) + SplitPart(q) + GroupByPart(q) + OrderByPart(q)
    + LimitPart(q) + StartPart(q) + FetchPart(q) + TimeoutPart(q) + ParallelPart(q)
    + ";"
  }

  function WherePart(q: QueryBuilder): string
  {
    if q.condition.Some? then " WHERE " + q.condition.value else ""
  }

  function SplitPart(q: QueryBuilder): string
  {
    if |q.split| > 0 then " SPLIT " + Join(q.split, ", ") else ""
  }

  function GroupByPart(q: QueryBuilder): string
  {
    if |q.groupBy| > 0 then " GROUP BY " + Join(q.groupBy, ", ") else ""
  }

  function OrderByPart(q: QueryBuilder): string
  {
    if |q.orderBy| > 0 then " ORDER BY " + Join(OrderTexts(q.orderBy), ", ") else ""
  }

  function LimitPart(q: QueryBuilder): string
  {
    if q.limit.Some? then " LIMIT " + Decimal(q.limit.value as nat) else ""
  }

  function StartPart(q: QueryBuilder): string
  {
    if q.start.Some? then " START AT " + Decimal(q.start.value as nat) else ""
  }

  function FetchPart(q: QueryBuilder): string
  {
    if |q.fetch| > 0 then " FETCH " + Join(q.fetch, ", ") else ""
  }

  function TimeoutPart(q: QueryBuilder): string
  {
    if q.timeout.Some? then " TIMEOUT " + q.timeout.value else ""
  }

  function ParallelPart(q: QueryBuilder): string
  {
    if q.parallel then " PARALLEL" else ""
  }

  function OrderTexts(os: seq<Order>): (r: seq<string>)
    ensures |r| == |os|
    ensures forall i :: 0 <= i < |os| ==> r[i] == OrderText(os[i])
  {
    seq(|os|, i requires 0 <= i < |os| => OrderText(os[i]))
  }
}
