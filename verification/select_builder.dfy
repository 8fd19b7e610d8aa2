/**
 Sequences of builder calls. A `QueryBuilder` is driven by a chain of calls
 (`select`, `from`, `where_`, `order_by`, `limit`, ...). This module names
 those calls, runs a chain of them, and states what a whole chain does: every
 list and the bindings accumulator only grow, the single-valued slots keep
 the last value written, and calls that make no bindings leave the
 accumulator and the counter alone.
 */
module SelectBuilder {
  import opened Wrappers
  import opened Text
  import opened Bindings
  import opened QuerySelect
  import SelectSections

  /** One builder call with its arguments. */
  datatype Call =
    | SelectAllCall
    | SelectCall(field: Fragment)
    | SelectManyCall(fields: seq<Fragment>)
    | FromCall(target: Targettables)
    | WhereCall(cond: Fragment)
    | SplitCall(splits: Splittables)
    | GroupByCall(groups: Groupables)
    | OrderByCall(orders: Orderables)
    | LimitCall(limit: u64)
    | StartCall(start: u64)
    | FetchCall(fetched: Fragment)
    | FetchManyCall(fetchedMany: seq<Fragment>)
    | TimeoutCall(duration: string)
    | ParallelCall

  /** The calls that can add to the bindings accumulator. */
  predicate MakesBindings(c: Call)
  {
    c.FromCall? || c.WhereCall? || c.OrderByCall?
  }

  /** `r` is `q` after more building: each list and the accumulator extend
      the old ones, and PARALLEL once set stays set. */
  predicate Extends(q: QueryBuilder, r: QueryBuilder)
  {
    && q.projections <= r.projections
    && q.targets <= r.targets
    && q.split <= r.split
    && q.groupBy <= r.groupBy
    && q.orderBy <= r.orderBy
    && q.fetch <= r.fetch
    && q.bindings <= r.bindings
    && (q.parallel ==> r.parallel)
  }

  lemma ExtendsTransitive(q: QueryBuilder, r: QueryBuilder, s: QueryBuilder)
    requires Extends(q, r) && Extends(r, s)
    ensures Extends(q, s)
  {
  }

  /** One call. */
  function Apply(q: QueryBuilder, c: Call, a: Allocator): (r: Allocated<QueryBuilder>)
    ensures Extends(q, r.value)
    ensures r.alloc.next >= a.next
    ensures !MakesBindings(c) ==> r.value.bindings == q.bindings
    ensures !c.FromCall? ==> r.alloc == a
    ensures !(c.SelectAllCall? || c.SelectCall? || c.SelectManyCall?) ==> r.value.projections == q.projections
    ensures !c.FromCall? ==> r.value.targets == q.targets
    ensures !c.SplitCall? ==> r.value.split == q.split
    ensures !c.GroupByCall? ==> r.value.groupBy == q.groupBy
    ensures !c.OrderByCall? ==> r.value.orderBy == q.orderBy
    ensures !(c.FetchCall? || c.FetchManyCall?) ==> r.value.fetch == q.fetch
    ensures r.value.parallel == (c.ParallelCall? || q.parallel)
    ensures r.value.condition == (if c.WhereCall? then Some(c.cond.text) else q.condition)
    ensures r.value.limit == (if c.LimitCall? then Some(c.limit) else q.limit)
    ensures r.value.start == (if c.StartCall? then Some(c.start) else q.start)
    ensures r.value.timeout == (if c.TimeoutCall? then Some(c.duration) else q.timeout)
  {
    match c
    case SelectAllCall => Allocated(SelectAll(q), a)
    case SelectCall(f) => Allocated(Select(q, f), a)
    case SelectManyCall(fs) => Allocated(SelectMany(q, fs), a)
    case FromCall(t) =>
      var r := From(q, t, a);
      assert r.value.targets[..|q.targets|] == q.targets;
      r
    case WhereCall(cond) => Allocated(Where(q, cond), a)
    case SplitCall(s) => Allocated(Split(q, s), a)
    case GroupByCall(g) => Allocated(GroupBy(q, g), a)
    case OrderByCall(o) => Allocated(OrderBy(q, o), a)
    case LimitCall(n) => Allocated(Limit(q, n), a)
    case StartCall(n) => Allocated(Start(q, n), a)
    case FetchCall(f) => Allocated(Fetch(q, f), a)
    case FetchManyCall(fs) => Allocated(FetchMany(q, fs), a)
    case TimeoutCall(d) => Allocated(Timeout(q, d), a)
    case ParallelCall => Allocated(Parallel(q), a)
  }

  /** A chain of calls, applied first to last. */
  function Run(q: QueryBuilder, cs: seq<Call>, a: Allocator): Allocated<QueryBuilder>
    decreases |cs|
  {
    if |cs| == 0 then Allocated(q, a)
    else
      var r := Run(q, cs[..|cs| - 1], a);
      Apply(r.value, cs[|cs| - 1], r.alloc)
  }

  /** Building only adds: after any chain every list and the accumulator
      extend their old contents, and the counter never goes back. */
  lemma {:induction false} RunExtends(q: QueryBuilder, cs: seq<Call>, a: Allocator)
    ensures Extends(q, Run(q, cs, a).value)
    ensures Run(q, cs, a).alloc.next >= a.next
    decreases |cs|
  {
    if |cs| > 0 {
      var r := Run(q, cs[..|cs| - 1], a);
      RunExtends(q, cs[..|cs| - 1], a);
      ExtendsTransitive(q, r.value, Run(q, cs, a).value);
    }
  }

  /** The value a single-valued slot holds after a chain: the last one written
      by a call for which `written` answers with a value, else `initial`. */
  function LastWritten<C, T>(cs: seq<C>, written: C -> Option<T>, initial: Option<T>): Option<T>
    decreases |cs|
  {
    if |cs| == 0 then initial
    else if written(cs[|cs| - 1]).Some? then written(cs[|cs| - 1])
    else LastWritten(cs[..|cs| - 1], written, initial)
  }

  function WrittenCondition(c: Call): Option<string>
  {
    if c.WhereCall? then Some(c.cond.text) else None
  }

  function WrittenLimit(c: Call): Option<u64>
  {
    if c.LimitCall? then Some(c.limit) else None
  }

  function WrittenStart(c: Call): Option<u64>
  {
    if c.StartCall? then Some(c.start) else None
  }

  function WrittenTimeout(c: Call): Option<string>
  {
    if c.TimeoutCall? then Some(c.duration) else None
  }

  /** WHERE, LIMIT, START AT and TIMEOUT are last-write-wins: after any chain
      each holds the value of the last call that set it, or its old value
      when no call did. */
  lemma {:induction false} RunSlots(q: QueryBuilder, cs: seq<Call>, a: Allocator)
    ensures Run(q, cs, a).value.condition == LastWritten(cs, WrittenCondition, q.condition)
    ensures Run(q, cs, a).value.limit == LastWritten(cs, WrittenLimit, q.limit)
    ensures Run(q, cs, a).value.start == LastWritten(cs, WrittenStart, q.start)
    ensures Run(q, cs, a).value.timeout == LastWritten(cs, WrittenTimeout, q.timeout)
    decreases |cs|
  {
    if |cs| > 0 {
      RunSlots(q, cs[..|cs| - 1], a);
    }
  }

  /** A chain without `from`, `where_` or `order_by` adds no bindings and
      draws nothing from the counter. */
  lemma {:induction false} RunWithoutBindingCalls(q: QueryBuilder, cs: seq<Call>, a: Allocator)
    requires forall i :: 0 <= i < |cs| ==> !MakesBindings(cs[i])
    ensures Run(q, cs, a).value.bindings == q.bindings
    ensures Run(q, cs, a).alloc == a
    decreases |cs|
  {
    if |cs| > 0 {
      RunWithoutBindingCalls(q, cs[..|cs| - 1], a);
    }
  }

  /** Calling `where_` twice keeps the second condition's text but the
      bindings of both conditions. */
  lemma WhereTwice(q: QueryBuilder, c1: Fragment, c2: Fragment, a: Allocator)
    ensures var r := Run(q, [WhereCall(c1), WhereCall(c2)], a).value;
      && r.condition == Some(c2.text)
      && r.bindings == q.bindings + c1.bindings + c2.bindings
  {
    var cs := [WhereCall(c1), WhereCall(c2)];
    assert cs[..1] == [WhereCall(c1)];
    assert [WhereCall(c1)][..0] == [];
    var r1 := Run(q, cs[..1], a);
    assert Run(q, [WhereCall(c1)][..0], a) == Allocated(q, a);
    assert r1 == Apply(q, WhereCall(c1), a);
    assert r1.value == Where(q, c1);
    assert Run(q, cs, a).value == Where(r1.value, c2);
  }

  /** A sub-query target is the inner statement in parentheses, its own ';'
      included, so the last target of the outer query ends with ";)". */
  lemma SubQueryTarget(q: QueryBuilder, sub: QueryBuilder, a: Allocator)
    ensures var r := From(q, SubQuery(sub), a);
      && |r.value.targets| == |q.targets| + 1
      && var t := r.value.targets[|q.targets|];
         |t| >= 2 && t[0] == '(' && t[|t| - 2..] == ";)"
    ensures From(q, SubQuery(sub), a).value.bindings == q.bindings + sub.bindings
  {
    SelectSections.DisplayFrame(sub);
    var d := Display(sub);
    var t := "(" + d + ")";
    assert t[|t| - 2] == d[|d| - 1];
  }

  // ------------------------------------------------------------ order specs

  /** One setter call on an `Order`. */
  datatype OrderCall = AscCall | DescCall | RandCall | CollateCall | NumericCall

  function ApplyOrder(o: Order, c: OrderCall): Order
  {
    match c
    case AscCall => OrderAsc(o)
    case DescCall => OrderDesc(o)
    case RandCall => OrderRand(o)
    case CollateCall => OrderCollate(o)
    case NumericCall => OrderNumeric(o)
  }

  /** A chain of setter calls, applied first to last. */
  function RunOrder(o: Order, cs: seq<OrderCall>): Order
    decreases |cs|
  {
    if |cs| == 0 then o else ApplyOrder(RunOrder(o, cs[..|cs| - 1]), cs[|cs| - 1])
  }

  function WrittenDirection(c: OrderCall): Option<Direction>
  {
    match c
    case AscCall => Some(Asc)
    case DescCall => Some(Desc)
    case _ => None
  }

  function WrittenOption(c: OrderCall): Option<OrderOption>
  {
    match c
    case RandCall => Some(Rand)
    case CollateCall => Some(Collate)
    case NumericCall => Some(Numeric)
    case _ => None
  }

  /** The direction and the option of an order spec are independent
      last-write-wins slots: a direction setter never touches the option and
      an option setter never touches the direction, and the field is never
      touched. */
  lemma {:induction false} RunOrderSlots(o: Order, cs: seq<OrderCall>)
    ensures RunOrder(o, cs).field == o.field
    ensures RunOrder(o, cs).direction == LastWritten(cs, WrittenDirection, o.direction)
    ensures RunOrder(o, cs).option == LastWritten(cs, WrittenOption, o.option)
    decreases |cs|
  {
    if |cs| > 0 {
      RunOrderSlots(o, cs[..|cs| - 1]);
    }
  }

  /** The direction an order renders with: the one set, ASC when none is. */
  function EffectiveDirection(o: Order): Direction
  {
    if o.direction.Some? then o.direction.value else Asc
  }

  /** An order renders as its field and a space first, and a space and its
      effective direction last; the option token sits between the two spaces. */
  lemma OrderTextShape(o: Order)
    ensures var t := OrderText(o);
      var d := DirectionText(EffectiveDirection(o));
      && |t| >= |o.field.text| + 2 + |d|
      && t[..|o.field.text| + 1] == o.field.text + " "
      && t[|t| - |d| - 1..] == " " + d
      && (o.option.None? ==> t == o.field.text + "  " + d)
      && (o.option.Some? ==> t == o.field.text + " " + OptionText(o.option.value) + " " + d)
  {
    var f := o.field.text + " ";
    var op := match o.option case None => "" case Some(x) => OptionText(x);
    var d := DirectionText(EffectiveDirection(o));
    var t := OrderText(o);
    assert t == f + (op + " " + d);
    assert t == (f + op) + (" " + d);
  }
}
