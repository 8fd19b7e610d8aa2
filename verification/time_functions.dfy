/**
 The `time::` function builders (`functions/time.rs`): `day` and `floor`.
 Each binds its arguments in order, renders a call whose arguments are the
 bindings' placeholders, and hands back the text with the bindings.
 */
module TimeFunctions {
  import opened Text
  import opened Bindings

  /** A datetime argument: a field holding one, or a datetime literal. */
  datatype DatetimeArg = DatetimeField(field: string) | DatetimeLiteral(datetime: string)

  /** A duration argument: a field holding one, or a duration literal. */
  datatype DurationArg = DurationField(field: string) | DurationLiteral(duration: string)

  /** `Function`: the rendered call and its bindings. */
  datatype Function = Function(queryString: string, bindings: BindingsList)

  /** The value a datetime argument is bound as (`Into<Datetime>`). */
  function DatetimeValueOf(d: DatetimeArg): Value
  {
    match d
    case DatetimeField(f) => FieldRef(f)
    case DatetimeLiteral(t) => DatetimeValue(t)
  }

  /** The value a duration argument is bound as (`Into<Duration>`). */
  function DurationValueOf(d: DurationArg): Value
  {
    match d
    case DurationField(f) => FieldRef(f)
    case DurationLiteral(t) => DurationValue(t)
  }

  /** `day_fn`: one binding for the datetime; the call names its placeholder. */
  function Day(datetime: DatetimeArg, a: Allocator): (r: Allocated<Function>)
    ensures r.value.bindings == [Binding(a.next, DatetimeValueOf(datetime))]
    ensures r.value.queryString == "time::day(" + Dollarised(r.value.bindings[0]) + ")"
    ensures r.alloc.next == a.next + 1
  {
    var b := NewBinding(DatetimeValueOf(datetime), a);
    Allocated(Function("time::day(" + Dollarised(b.value) + ")", [b.value]), b.alloc)
  }

  /** `floor_fn`: the datetime is bound first and the duration second; the
      call names their placeholders in that order. */
  function Floor(datetime: DatetimeArg, duration: DurationArg, a: Allocator): (r: Allocated<Function>)
    ensures r.value.bindings == [Binding(a.next, DatetimeValueOf(datetime)),
                                 Binding(a.next + 1, DurationValueOf(duration))]
    ensures r.value.queryString ==
      "time::floor(" + Dollarised(r.value.bindings[0]) + ", " + Dollarised(r.value.bindings[1]) + ")"
    ensures r.alloc.next == a.next + 2
  {
    var bs := AllocMany([DatetimeValueOf(datetime), DurationValueOf(duration)], a);
    var text := "time::floor(" + Dollarised(bs.value[0]) + ", " + Dollarised(bs.value[1]) + ")";
    Allocated(Function(text, bs.value), bs.alloc)
  }

  /** The two placeholders of a `floor` call are distinct, and both are
      distinct from every binding made before the call. */
  lemma FloorFresh(datetime: DatetimeArg, duration: DurationArg, a: Allocator, earlier: BindingsList)
    requires AllocatedBefore(earlier, a)
    ensures var bs := Floor(datetime, duration, a).value.bindings;
      && Dollarised(bs[0]) != Dollarised(bs[1])
      && DistinctParams(bs)
      && AllocatedBefore(bs, Floor(datetime, duration, a).alloc)
      && forall i, j :: 0 <= i < |earlier| && 0 <= j < 2 ==> Param(earlier[i]) != Param(bs[j])
  {
    var vs := [DatetimeValueOf(datetime), DurationValueOf(duration)];
    AllocManyFresh(vs, a, earlier);
    var bs := Floor(datetime, duration, a).value.bindings;
    assert bs == AllocMany(vs, a).value;
    DollarisedInjective(bs[0], bs[1]);
  }

  /** The rendered text depends only on the counter, not on the arguments:
      a field and a literal produce the same call text, and only the bound
      values differ. */
  lemma TextIndependentOfArguments(d1: DatetimeArg, d2: DatetimeArg, u1: DurationArg, u2: DurationArg, a: Allocator)
    ensures Day(d1, a).value.queryString == Day(d2, a).value.queryString
    ensures Floor(d1, u1, a).value.queryString == Floor(d2, u2, a).value.queryString
    ensures Day(d1, a).value.bindings == Day(d2, a).value.bindings <==> DatetimeValueOf(d1) == DatetimeValueOf(d2)
  {
    var b1 := Day(d1, a).value.bindings;
    var b2 := Day(d2, a).value.bindings;
    if b1 == b2 {
      assert b1[0].value == b2[0].value;
    }
  }

  /** With a fresh counter the first binding is `_param_00000001`, as in the
      crate's own examples of `day`. */
  lemma DayFirstPlaceholder(datetime: DatetimeArg)
    ensures Day(datetime, Allocator(1)).value.queryString == "time::day($_param_00000001)"
  {
    var d := Day(datetime, Allocator(1)).value;
    PlaceholderOf(d.bindings[0]);
    assert "time::day(" + Dollarised(d.bindings[0]) + ")" == "time::day($_param_00000001)";
  }

  /** With a fresh counter `floor` names `_param_00000001` and
      `_param_00000002`, as in the crate's own examples. */
  lemma FloorFirstPlaceholders(datetime: DatetimeArg, duration: DurationArg)
    ensures Floor(datetime, duration, Allocator(1)).value.queryString
            == "time::floor($_param_00000001, $_param_00000002)"
  {
    var f := Floor(datetime, duration, Allocator(1)).value;
    PlaceholderOf(f.bindings[0]);
    PlaceholderOf(f.bindings[1]);
    FloorCallText(Dollarised(f.bindings[0]), Dollarised(f.bindings[1]));
  }

  /** The `floor` call text for the first two placeholders, proved apart from
      the binding terms so that the string equation stays small. */
  lemma FloorCallText(p1: string, p2: string)
    requires p1 == "$_param_0000000" + [DigitChar(1)]
    requires p2 == "$_param_0000000" + [DigitChar(2)]
    ensures "time::floor(" + p1 + ", " + p2 + ")" == "time::floor($_param_00000001, $_param_00000002)"
  {
  }

  /** The placeholder of a binding numbered with a single nonzero digit. */
  lemma PlaceholderOf(b: Binding)
    requires 0 < b.id < 10
    ensures Dollarised(b) == "$_param_0000000" + [DigitChar(b.id)]
  {
    var d := [DigitChar(b.id)];
    assert Decimal(b.id) == d;
    assert ZeroPad(d, ParamWidth) == Zeros(7) + d;
    SevenZeros();
    PlaceholderText(d);
  }

  lemma SevenZeros()
    ensures Zeros(7) == "0000000"
  {
    assert Zeros(1) == "0";
    assert Zeros(3) == "000";
    assert Zeros(5) == "00000";
  }

  lemma PlaceholderText(d: string)
    ensures "$" + (ParamPrefix + ("0000000" + d)) == "$_param_0000000" + d
  {
    AppendAssoc(ParamPrefix, "0000000", d);
    AppendAssoc("$", ParamPrefix + "0000000", d);
  }
}
