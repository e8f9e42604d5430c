/**
 The custom reduction behind the map's coordinate grouping: the add, remove
 and initial callbacks the cross-filter library calls as records enter and
 leave the current filter. The accumulator keeps a live member count and the
 display fields of a representative project.
 */
module CoordinateGroup {
  import opened JsValues
  import opened Charts

  datatype Option<+T> = None | Some(value: T)

  /** The accumulator object `p`. The display fields are absent until the
      first add sets them. */
  datatype Accumulator = Accumulator(
    count: int,
    lat: Option<JsValue>,
    lng: Option<JsValue>,
    projectType: Option<JsValue>,
    developer: Option<JsValue>,
    projectUrl: Option<JsValue>,
    sector: Option<JsValue>,
    investmentMm: Option<JsValue>,
    nationality: Option<JsValue>,
    province: Option<JsValue>)

  /** No display field is present. */
  predicate NoDisplay(a: Accumulator) {
    && a.lat.None? && a.lng.None? && a.projectType.None? && a.developer.None?
    && a.projectUrl.None? && a.sector.None? && a.investmentMm.None?
    && a.nationality.None? && a.province.None?
  }

  /** The display fields are those of project `v`. */
  predicate Shows(a: Accumulator, v: Project) {
    && a.lat == Some(v.lat) && a.lng == Some(v.lng)
    && a.projectType == Some(v.projectType) && a.developer == Some(v.developer)
    && a.projectUrl == Some(v.projectUrl) && a.sector == Some(v.sector)
    && a.investmentMm == Some(v.investmentMm) && a.nationality == Some(v.nationality)
    && a.province == Some(v.province)
  }

  /** The two accumulators agree on every display field. */
  predicate SameDisplay(a: Accumulator, b: Accumulator) {
    a.(count := 0) == b.(count := 0)
  }

  /** `() => ({count: 0})` */
  function Initial(): (a: Accumulator)
    ensures a.count == 0
    ensures NoDisplay(a)
  {
    Accumulator(0, None, None, None, None, None, None, None, None, None)
  }

  /** The add callback: overwrite the nine display fields with `v`'s, count one more. */
  function Add(p: Accumulator, v: Project): (a: Accumulator)
    ensures a.count == p.count + 1
    ensures Shows(a, v)
  {
    p.(lat := Some(v.lat), lng := Some(v.lng),
       projectType := Some(v.projectType), developer := Some(v.developer),
       projectUrl := Some(v.projectUrl), sector := Some(v.sector),
       investmentMm := Some(v.investmentMm), nationality := Some(v.nationality),
       province := Some(v.province),
       count := p.count + 1)
  }

  /** The remove callback: count one fewer, display fields left as they were. */
  function Remove(p: Accumulator, v: Project): (a: Accumulator)
    ensures a.count == p.count - 1
    ensures SameDisplay(a, p)
  {
    p.(count := p.count - 1)
  }

  /** One call the library makes on a group's accumulator. */
  datatype Op = AddOp(v: Project) | RemoveOp(v: Project)

  function Apply(a: Accumulator, op: Op): Accumulator {
    match op
    case AddOp(v) => Add(a, v)
    case RemoveOp(v) => Remove(a, v)
  }

  /** The accumulator after the library has made the calls `ops`, in order. */
  function Run(a: Accumulator, ops: seq<Op>): Accumulator
    decreases |ops|
  {
    if |ops| == 0 then a else Run(Apply(a, ops[0]), ops[1..])
  }

  function Adds(ops: seq<Op>): nat {
    if |ops| == 0 then 0 else (if ops[0].AddOp? then 1 else 0) + Adds(ops[1..])
  }

  function Removes(ops: seq<Op>): nat {
    if |ops| == 0 then 0 else (if ops[0].RemoveOp? then 1 else 0) + Removes(ops[1..])
  }

  /** The project of the last add in `ops`, if any. */
  function LastAdded(ops: seq<Op>): Option<Project>
    decreases |ops|
  {
    if |ops| == 0 then None
    else if ops[|ops| - 1].AddOp? then Some(ops[|ops| - 1].v)
    else LastAdded(ops[..|ops| - 1])
  }

  /** After any sequence of calls the count has moved by adds minus removes. */
  lemma {:induction false} RunCount(a: Accumulator, ops: seq<Op>)
    ensures Run(a, ops).count == a.count + Adds(ops) - Removes(ops)
    decreases |ops|
  {
    if |ops| > 0 {
      RunCount(Apply(a, ops[0]), ops[1..]);
    }
  }

  /** Running two batches one after the other is running their concatenation. */
  lemma {:induction false} RunAppend(a: Accumulator, xs: seq<Op>, ys: seq<Op>)
    ensures Run(a, xs + ys) == Run(Run(a, xs), ys)
    decreases |xs|
  {
    if |xs| > 0 {
      assert (xs + ys)[1..] == xs[1..] + ys;
      RunAppend(Apply(a, xs[0]), xs[1..], ys);
    } else {
      assert xs + ys == ys;
    }
  }

  lemma {:induction false} AddsAppend(xs: seq<Op>, ys: seq<Op>)
    ensures Adds(xs + ys) == Adds(xs) + Adds(ys)
    ensures Removes(xs + ys) == Removes(xs) + Removes(ys)
    decreases |xs|
  {
    if |xs| > 0 {
      assert (xs + ys)[1..] == xs[1..] + ys;
      AddsAppend(xs[1..], ys);
    } else {
      assert xs + ys == ys;
    }
  }

  /** Whatever came before, adding a project and then removing it restores
      the count, and leaves that project on display. */
  lemma AddThenRemove(a: Accumulator, ops: seq<Op>, v: Project)
    ensures Run(a, ops + [AddOp(v), RemoveOp(v)]).count == Run(a, ops).count
    ensures Shows(Run(a, ops + [AddOp(v), RemoveOp(v)]), v)
  {
    RunAppend(a, ops, [AddOp(v), RemoveOp(v)]);
    var b := Run(a, ops);
    assert [AddOp(v), RemoveOp(v)][1..] == [RemoveOp(v)];
    assert Run(b, [AddOp(v), RemoveOp(v)]) == Run(Add(b, v), [RemoveOp(v)]);
    assert Run(Add(b, v), [RemoveOp(v)]) == Remove(Add(b, v), v);
  }

  /** The final count does not depend on the order in which two batches of
      calls arrive. */
  lemma BatchOrderIrrelevantForCount(a: Accumulator, xs: seq<Op>, ys: seq<Op>)
    ensures Run(a, xs + ys).count == Run(a, ys + xs).count
  {
    RunCount(a, xs + ys);
    RunCount(a, ys + xs);
    AddsAppend(xs, ys);
    AddsAppend(ys, xs);
  }

  /** The last add wins: the display fields are those of the last project
      added, or unchanged when nothing was added. */
  lemma {:induction false} RunDisplay(a: Accumulator, ops: seq<Op>)
    ensures LastAdded(ops).None? ==> SameDisplay(Run(a, ops), a)
    ensures LastAdded(ops).Some? ==> Shows(Run(a, ops), LastAdded(ops).value)
    decreases |ops|
  {
    if |ops| > 0 {
      var init := ops[..|ops| - 1];
      var last := ops[|ops| - 1];
      assert ops == init + [last];
      RunAppend(a, init, [last]);
      RunDisplay(a, init);
    }
  }

  /** From the initial accumulator the display fields are present exactly
      when some add has happened. */
  lemma DisplayAbsentUntilFirstAdd(ops: seq<Op>)
    ensures NoDisplay(Run(Initial(), ops)) <==> LastAdded(ops).None?
  {
    RunDisplay(Initial(), ops);
  }

  /** From the initial accumulator the count is the number of adds minus the
      number of removes. */
  lemma CountFromInitial(ops: seq<Op>)
    ensures Run(Initial(), ops).count == Adds(ops) - Removes(ops)
  {
    RunCount(Initial(), ops);
  }
}
