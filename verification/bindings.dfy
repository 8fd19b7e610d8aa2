/**
 Bindings: the (placeholder, value) pairs that keep query text injection safe.

 The crate's `Binding::new` draws its placeholder from a process-wide counter.
 Here the counter is an explicit `Allocator` value threaded through every
 construction call, so freshness becomes a property of the threading: a
 binding made from an allocator whose counter is `n` has id `n`, and the
 allocator handed back counts from `n + 1`.
 */
module Bindings {
  import opened Text

  /** The value a binding carries. Only its kind matters to this model. */
  datatype Value =
    | TableName(name: string)
    | RecordId(id: string)
    | FieldRef(name: string)
    | DatetimeValue(text: string)
    | DurationValue(text: string)

  datatype Binding = Binding(id: nat, value: Value)

  type BindingsList = seq<Binding>

  /** The width the counter is zero padded to inside a parameter name. */
  const ParamWidth: nat := 8

  const ParamPrefix: string := "_param_"

  /** The parameter name of a binding (`get_param`), e.g. `_param_00000001`. */
  function Param(b: Binding): (r: string)
    ensures |r| >= |ParamPrefix| + ParamWidth
    ensures r[..|ParamPrefix|] == ParamPrefix
  {
    ParamPrefix + ZeroPad(Decimal(b.id), ParamWidth)
  }

  /** The placeholder as it appears in parameterised text (`get_param_dollarised`). */
  function Dollarised(b: Binding): (r: string)
    ensures |r| > 0 && r[0] == '$'
    ensures r[1..] == Param(b)
  {
    "$" + Param(b)
  }

  /** Two bindings share a parameter name exactly when they share an id. */
  lemma ParamInjective(a: Binding, b: Binding)
    ensures Param(a) == Param(b) <==> a.id == b.id
  {
    if Param(a) == Param(b) {
      var n := |ParamPrefix|;
      assert Param(a)[n..] == ZeroPad(Decimal(a.id), ParamWidth);
      assert Param(b)[n..] == ZeroPad(Decimal(b.id), ParamWidth);
      PaddedDecimalRoundTrip(a.id, ParamWidth);
      PaddedDecimalRoundTrip(b.id, ParamWidth);
    }
  }

  /** The same holds of the dollarised placeholders. */
  lemma DollarisedInjective(a: Binding, b: Binding)
    ensures Dollarised(a) == Dollarised(b) <==> a.id == b.id
  {
    ParamInjective(a, b);
    if Dollarised(a) == Dollarised(b) {
      assert Dollarised(a)[1..] == Dollarised(b)[1..];
    }
  }

  /** The binding counter: `next` is the id the next binding receives. */
  datatype Allocator = Allocator(next: nat)

  /** A value built together with the allocator state after building it. */
  datatype Allocated<T> = Allocated(value: T, alloc: Allocator)

  /** Every binding of `bs` was made before the allocator reached `a`. */
  predicate AllocatedBefore(bs: BindingsList, a: Allocator)
  {
    forall i :: 0 <= i < |bs| ==> bs[i].id < a.next
  }

  /** The placeholders of `bs` are pairwise distinct. */
  predicate DistinctParams(bs: BindingsList)
  {
    forall i, j :: 0 <= i < j < |bs| ==> Param(bs[i]) != Param(bs[j])
  }

  /** `Binding::new`: a binding for `v` under the next id. */
  function NewBinding(v: Value, a: Allocator): (r: Allocated<Binding>)
    ensures r.value.value == v
    ensures r.alloc.next == a.next + 1
    ensures AllocatedBefore([r.value], r.alloc)
    ensures forall e: Binding :: e.id < a.next ==> Param(e) != Param(r.value)
  {
    var b := Binding(a.next, v);
    assert forall e: Binding :: e.id < a.next ==> Param(e) != Param(b) by {
      forall e: Binding | e.id < a.next {
        ParamInjective(e, b);
      }
    }
    Allocated(b, Allocator(a.next + 1))
  }

  /** One binding per value, in order (`values.map(Binding::new)`). */
  function AllocMany(vs: seq<Value>, a: Allocator): (r: Allocated<BindingsList>)
    ensures |r.value| == |vs|
    ensures r.alloc.next == a.next + |vs|
    ensures forall i :: 0 <= i < |vs| ==> r.value[i] == Binding(a.next + i, vs[i])
    decreases |vs|
  {
    if |vs| == 0 then Allocated([], a)
    else
      var first := NewBinding(vs[0], a);
      var rest := AllocMany(vs[1..], first.alloc);
      Allocated([first.value] + rest.value, rest.alloc)
  }

  /** Bindings allocated together are fresh: distinct from each other and from
      every binding made earlier from the same counter. */
  lemma AllocManyFresh(vs: seq<Value>, a: Allocator, earlier: BindingsList)
    requires AllocatedBefore(earlier, a)
    ensures DistinctParams(AllocMany(vs, a).value)
    ensures AllocatedBefore(AllocMany(vs, a).value, AllocMany(vs, a).alloc)
    ensures forall i, j :: 0 <= i < |earlier| && 0 <= j < |vs| ==>
              Param(earlier[i]) != Param(AllocMany(vs, a).value[j])
  {
    var bs := AllocMany(vs, a).value;
    forall i, j | 0 <= i < j < |bs|
      ensures Param(bs[i]) != Param(bs[j])
    {
      ParamInjective(bs[i], bs[j]);
    }
    forall i, j | 0 <= i < |earlier| && 0 <= j < |vs|
      ensures Param(earlier[i]) != Param(bs[j])
    {
      ParamInjective(earlier[i], bs[j]);
    }
  }

  /**
   The text, bindings and errors of a collaborator whose internals are not
   part of this model: a `Filter`/`cond` condition, a `NumberLike`, a
   `DbField`, a `SelectStatement`. Each exposes its rendered text (`build`,
   `Display`), its bindings (`Parametric`) and its errors (`Erroneous`).
   */
  datatype Fragment = Fragment(text: string, bindings: BindingsList, errors: seq<string>)
}
