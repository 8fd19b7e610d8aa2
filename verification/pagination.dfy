/**
 Relay-style cursor pagination over a list (`query_characters` in
 `starwars/resolvers.rs`). The cursors `after` and `before` and the counts
 `first` and `last` choose a window of the list; the answer is that window
 as edges, each carrying its absolute index as cursor, together with two
 flags telling whether there is more before and more after the page.

 The arithmetic is modelled twice: `WindowAsWritten` follows the source
 line for line, including the way the `first` branch moves `end`, and
 `Window` is the same computation with `end` placed right after the last
 item returned. The rest of the model uses `Window`.
 */
module Pagination {
  import opened Wrappers

  datatype Edge<T> = Edge(cursor: nat, node: T)

  datatype Connection<T> = Connection(hasPrevious: bool, hasNext: bool, edges: seq<Edge<T>>)

  /** The page the arithmetic settles on: nothing (an early return), or the
      adjusted `start` and `end` the flags are computed from, together with
      the absolute bounds `lo..hi` of the slice that is returned. */
  datatype Page = NoPage | Page(start: nat, end: nat, lo: nat, hi: nat)

  /** `start` after the `after` cursor: one past it, or the beginning. */
  function StartOf(after: Option<nat>): nat
  {
    if after.Some? then after.value + 1 else 0
  }

  /** `end` after the `before` cursor: the cursor itself, or the length. */
  function EndOf(len: nat, before: Option<nat>): nat
  {
    if before.Some? then before.value else len
  }

  /** The two early returns: `after` at or past the last index, or `before`
      at the first. */
  predicate EarlyEmpty(len: nat, after: Option<nat>, before: Option<nat>)
  {
    (after.Some? && after.value >= len) || (before.Some? && before.value == 0)
  }

  /** The inputs for which the source does not panic: either an early return
      is taken, or `characters[start..end]` is a valid slice. */
  predicate Admissible(len: nat, after: Option<nat>, before: Option<nat>)
  {
    EarlyEmpty(len, after, before) || StartOf(after) <= EndOf(len, before) <= len
  }

  /** The page as the source computes it. With `first`, `end` is lowered by
      the number of items kept rather than set to just after them. */
  function WindowAsWritten(len: nat, after: Option<nat>, before: Option<nat>,
                           first: Option<nat>, last: Option<nat>): (p: Page)
    requires Admissible(len, after, before)
    ensures p.Page? ==> p.lo <= p.hi <= len && p.start == p.lo
  {
    if after.Some? && after.value >= len then NoPage
    else if before.Some? && before.value == 0 then NoPage
    else
      var s := StartOf(after);
      var e := EndOf(len, before);
      var n := e - s;
      if first.Some? then
        var k := Min(first.value, n);
        Page(s, e - k, s, s + k)
      else if last.Some? then
        var k := Min(last.value, n);
        Page(e - k, e, e - k, e)
      else Page(s, e, s, e)
  }

  /** The page with `end` just after the last item returned, in every branch. */
  function Window(len: nat, after: Option<nat>, before: Option<nat>,
                  first: Option<nat>, last: Option<nat>): (p: Page)
    requires Admissible(len, after, before)
    ensures p.Page? ==> p.lo <= p.hi <= len && p.start == p.lo && p.end == p.hi
  {
    if after.Some? && after.value >= len then NoPage
    else if before.Some? && before.value == 0 then NoPage
    else
      var s := StartOf(after);
      var e := EndOf(len, before);
      var n := e - s;
      if first.Some? then
        var k := Min(first.value, n);
        Page(s, s + k, s, s + k)
      else if last.Some? then
        var k := Min(last.value, n);
        Page(e - k, e, e - k, e)
      else Page(s, e, s, e)
  }

  function Min(a: nat, b: nat): nat
  {
    if a <= b then a else b
  }

  /** The connection for a page: the flags from the adjusted start and end,
      and one edge per item of the slice, its cursor being `start` plus its
      position in the slice. */
  method Connect<T>(chars: seq<T>, p: Page) returns (c: Connection<T>)
    requires p.Page? ==> p.lo <= p.hi <= |chars| && p.start == p.lo
    ensures p.NoPage? ==> c == Connection(false, false, [])
    ensures p.Page? ==> c.hasPrevious == (p.start > 0) && c.hasNext == (p.end < |chars|)
    ensures p.Page? ==> |c.edges| == p.hi - p.lo
    ensures p.Page? ==> forall i :: 0 <= i < |c.edges| ==>
      c.edges[i].cursor == p.lo + i && c.edges[i].node == chars[p.lo + i]
  {
    if p.NoPage? {
      return Connection(false, false, []);
    }
    var edges: seq<Edge<T>> := [];
    var idx := 0;
    while idx < p.hi - p.lo
      invariant 0 <= idx <= p.hi - p.lo
      invariant |edges| == idx
      invariant forall i :: 0 <= i < idx ==>
        edges[i].cursor == p.start + i && edges[i].node == chars[p.lo + i]
    {
      edges := edges + [Edge(p.start + idx, chars[p.lo + idx])];
      idx := idx + 1;
    }
    c := Connection(p.start > 0, p.end < |chars|, edges);
  }

  /** `query_characters`, with the `first` branch placing `end` after the
      last item kept. */
  method QueryCharacters<T>(chars: seq<T>, after: Option<nat>, before: Option<nat>,
                            first: Option<nat>, last: Option<nat>) returns (c: Connection<T>)
    requires Admissible(|chars|, after, before)
    ensures EarlyEmpty(|chars|, after, before) ==> c == Connection(false, false, [])
    ensures forall i :: 0 <= i < |c.edges| ==>
      c.edges[i].cursor < |chars| && c.edges[i].node == chars[c.edges[i].cursor]
    ensures forall i :: 0 < i < |c.edges| ==> c.edges[i].cursor == c.edges[i - 1].cursor + 1
    ensures !EarlyEmpty(|chars|, after, before) && |c.edges| > 0 ==>
      c.hasPrevious == (c.edges[0].cursor > 0)
      && c.hasNext == (c.edges[|c.edges| - 1].cursor + 1 < |chars|)
    ensures var p := Window(|chars|, after, before, first, last);
      p.Page? ==>
        && |c.edges| == p.hi - p.lo
        && (forall i :: 0 <= i < |c.edges| ==>
              c.edges[i].cursor == p.lo + i && c.edges[i].node == chars[p.lo + i])
        && c.hasPrevious == (p.start > 0)
        && c.hasNext == (p.end < |chars|)
  {
    var p := Window(|chars|, after, before, first, last);
    c := Connect(chars, p);
  }

  /** `query_characters` exactly as written. */
  method QueryCharactersAsWritten<T>(chars: seq<T>, after: Option<nat>, before: Option<nat>,
                                     first: Option<nat>, last: Option<nat>) returns (c: Connection<T>)
    requires Admissible(|chars|, after, before)
    ensures EarlyEmpty(|chars|, after, before) ==> c == Connection(false, false, [])
    ensures forall i :: 0 <= i < |c.edges| ==>
      c.edges[i].cursor < |chars| && c.edges[i].node == chars[c.edges[i].cursor]
    ensures var p := WindowAsWritten(|chars|, after, before, first, last);
      p.Page? ==>
        && |c.edges| == p.hi - p.lo
        && (forall i :: 0 <= i < |c.edges| ==>
              c.edges[i].cursor == p.lo + i && c.edges[i].node == chars[p.lo + i])
        && c.hasPrevious == (p.start > 0)
        && c.hasNext == (p.end < |chars|)
  {
    var p := WindowAsWritten(|chars|, after, before, first, last);
    c := Connect(chars, p);
  }

  /** The slice a page returns: with `first` the leading `min(first, n)`
      items of `start..end`, else with `last` the trailing `min(last, n)`,
      else all of them; `first` wins when both are given. */
  lemma WindowSlice(len: nat, after: Option<nat>, before: Option<nat>, first: Option<nat>, last: Option<nat>)
    requires Admissible(len, after, before)
    ensures var p := Window(len, after, before, first, last);
      && (p.NoPage? <==> EarlyEmpty(len, after, before))
      && (p.Page? ==>
          var s := StartOf(after);
          var e := EndOf(len, before);
          && s <= p.lo <= p.hi <= e
          && (first.Some? ==> p.lo == s && p.hi - p.lo == Min(first.value, e - s))
          && (first.None? && last.Some? ==> p.hi == e && p.hi - p.lo == Min(last.value, e - s))
          && (first.None? && last.None? ==> p.lo == s && p.hi == e))
  {
  }

  /** With the corrected arithmetic the flags mean what they say: there is a
      previous page exactly when some item precedes the page, and a next page
      exactly when some item follows it. */
  lemma FlagsMatchNeighbours(len: nat, after: Option<nat>, before: Option<nat>, first: Option<nat>, last: Option<nat>)
    requires Admissible(len, after, before)
    requires !EarlyEmpty(len, after, before)
    ensures var p := Window(len, after, before, first, last);
      && p.Page?
      && ((p.start > 0) <==> p.lo > 0)
      && ((p.end < len) <==> p.hi < len)
  {
  }

  /** Without `first` the source and the corrected arithmetic agree. */
  lemma AsWrittenAgreesWithoutFirst(len: nat, after: Option<nat>, before: Option<nat>, last: Option<nat>)
    requires Admissible(len, after, before)
    ensures WindowAsWritten(len, after, before, None, last) == Window(len, after, before, None, last)
  {
  }

  /** The source keeps the same items as the corrected arithmetic, on every
      admissible input: the two differ only in `end`, which with `first` is
      lowered from the `before` bound by the number of items kept instead of
      being set just after them. */
  lemma AsWrittenSameItems(len: nat, after: Option<nat>, before: Option<nat>,
                           first: Option<nat>, last: Option<nat>)
    requires Admissible(len, after, before)
    ensures var p := WindowAsWritten(len, after, before, first, last);
      var w := Window(len, after, before, first, last);
      && (p.NoPage? <==> w.NoPage?)
      && (p.Page? ==> p.lo == w.lo && p.hi == w.hi && p.start == w.start)
      && (p.Page? && first.Some? ==> p.end == EndOf(len, before) - (p.hi - p.lo))
      && (p.Page? && first.None? ==> p.end == w.end)
  {
  }

  /** As written, `first` makes `end` fall short of `len` whenever an item is
      kept and no `before` cursor is given, so `has_next` is set even when
      the page reaches the last item: three items with `first` five return
      all three and still claim a next page. */
  lemma AsWrittenFirstClaimsNext()
    ensures var p := WindowAsWritten(3, None, None, Some(5), None);
      && p == Page(0, 0, 0, 3)
      && p.hi == 3 && p.end < 3
    ensures var p := Window(3, None, None, Some(5), None);
      p == Page(0, 3, 0, 3) && !(p.end < 3)
  {
  }

  /** The general form of the discrepancy: with `first` and no `before`, the
      source's `end` is below `len` for every non-empty page, including the
      pages that end with the last item. */
  lemma AsWrittenFirstAlwaysNext(len: nat, after: Option<nat>, first: nat)
    requires Admissible(len, after, None)
    requires !EarlyEmpty(len, after, None)
    requires Min(first, len - StartOf(after)) > 0
    ensures var p := WindowAsWritten(len, after, None, Some(first), None);
      p.Page? && p.end < len
    ensures var p := Window(len, after, None, Some(first), None);
      p.Page? && (p.end < len <==> StartOf(after) + first < len)
  {
  }
}
