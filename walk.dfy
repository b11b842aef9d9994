/** `walk_grid_options`: the in-place walk that GridBuilder runs over the
    finished grid options with a function that unwraps JsCode values.

    As written, the `else:` under the inner `for` is the `for` loop's own
    `else`, which always runs. So `function` is applied to every list-valued
    slot, after the list's elements are walked, and never to a scalar slot.
    Walking a list iterates over its elements and uses each one as an
    index into that same live list. For a dict, the keys are the
    indices. */
module OptionsWalk {
  import opened Outcomes
  import opened Tree

  /** The function never makes a list larger. Termination of the walk rests
      on this; the only caller's function leaves lists alone. */
  ghost predicate NonGrowing(f: Value -> Value) {
    forall v: Value :: v.List? ==> Size(f(v)) <= Size(v)
  }

  /** `lst[k]` on a list of length `n`. An integer or a bool indexes the
      list, and a negative integer counts from the end. An index out of
      range is an IndexError, and any other key is a TypeError. */
  function PyIndex(k: Value, n: nat): (r: Option<nat>)
    ensures r.Some? ==> r.value < n
  {
    match k
    case Int(m) => if -(n as int) <= m < n then Some(if m < 0 then m + n else m) else None
    case Bool(b) => if (if b then 1 else 0) < n then Some(if b then 1 else 0) else None
    case _ => None
  }

  /** `walk_grid_options(t, f)` on a tree `t`, with the walked tree as the
      result. */
  function Walk(t: Value, f: Value -> Value): (r: Result<Value>)
    requires NonGrowing(f)
    ensures r.Success? ==> Size(r.value) <= Size(t)
    decreases Size(t), 1, 0
  {
    match t
    case Obj(es) =>
      var us :- WalkEntries(es, f);
      Success(Obj(us))
    case List(xs) =>
      var ys :- WalkIndexed(xs, 0, f);
      Success(List(ys))
    case _ => Success(t)
  }

  /** The body of the loop for one slot `v == grid_opts[k]`. A dict is
      walked. A list has its elements walked and is then replaced by
      `f` of itself. Anything else stays as it is. */
  function WalkSlot(v: Value, f: Value -> Value): (r: Result<Value>)
    requires NonGrowing(f)
    ensures r.Success? ==> Size(r.value) <= Size(v)
    decreases Size(v), 2, 0
  {
    match v
    case Obj(_) => Walk(v, f)
    case List(xs) =>
      var ys :- WalkElems(xs, f);
      Success(f(List(ys)))
    case _ => Success(v)
  }

  /** The loop over the keys of a dict: each key's slot is walked once, in
      insertion order. */
  function WalkEntries(es: seq<Entry>, f: Value -> Value): (r: Result<seq<Entry>>)
    requires NonGrowing(f)
    ensures r.Success? ==> Keys(r.value) == Keys(es) && EntriesSize(r.value) <= EntriesSize(es)
    decreases 1 + EntriesSize(es), 0, 0
  {
    if es == [] then Success([])
    else
      var v :- WalkSlot(es[0].value, f);
      var rest :- WalkEntries(es[1..], f);
      Success([Entry(es[0].key, v)] + rest)
  }

  /** `for elem in grid_opts[k]: walk_grid_options(elem, f)`. */
  function WalkElems(xs: seq<Value>, f: Value -> Value): (r: Result<seq<Value>>)
    requires NonGrowing(f)
    ensures r.Success? ==> |r.value| == |xs| && ListSize(r.value) <= ListSize(xs)
    decreases 1 + ListSize(xs), 0, 0
  {
    if xs == [] then Success([])
    else
      var y :- Walk(xs[0], f);
      var ys :- WalkElems(xs[1..], f);
      Success([y] + ys)
  }

  /** The loop over a list `cur`, from position `i` on. The element at `i`,
      as it is now, is used as an index into `cur`, and the slot it picks
      is walked in place. */
  function WalkIndexed(cur: seq<Value>, i: nat, f: Value -> Value): (r: Result<seq<Value>>)
    requires NonGrowing(f) && i <= |cur|
    ensures r.Success? ==> |r.value| == |cur| && ListSize(r.value) <= ListSize(cur)
    decreases 1 + ListSize(cur), 0, |cur| - i
  {
    if i == |cur| then Success(cur)
    else
      match PyIndex(cur[i], |cur|)
      case None => Failure(Crash)
      case Some(j) =>
        ElementSize(cur, j);
        var v :- WalkSlot(cur[j], f);
        UpdateSize(cur, j, v);
        WalkIndexed(cur[j := v], i + 1, f)
  }

  /** A result with `done` put in front of its value. */
  function Prefixed<T>(done: seq<T>, r: Result<seq<T>>): Result<seq<T>> {
    if r.Success? then Success(done + r.value) else r
  }

  /** `walk_grid_options(grid_opts, function)`. The result is the walked
      tree, or the exception that stopped the walk. */
  method WalkGridOptions(t: Value, f: Value -> Value) returns (r: Result<Value>)
    requires NonGrowing(f)
    ensures r == Walk(t, f)
    decreases Size(t), 1, 0
  {
    match t {
      case Obj(es) =>
        var us := WalkDict(es, f);
        if us.Failure? {
          return Failure(us.error);
        }
        return Success(Obj(us.value));
      case List(xs) =>
        var ys := WalkList(xs, f);
        if ys.Failure? {
          return Failure(ys.error);
        }
        return Success(List(ys.value));
      case _ =>
        return Success(t);
    }
  }

  /** The loop over the keys of a dict. */
  method WalkDict(es: seq<Entry>, f: Value -> Value) returns (r: Result<seq<Entry>>)
    requires NonGrowing(f)
    ensures r == WalkEntries(es, f)
    decreases 1 + EntriesSize(es), 0, 0
  {
    var done: seq<Entry> := [];
    var i := 0;
    PrefixedNothing(es, WalkEntries(es, f));
    while i < |es|
      invariant 0 <= i <= |es|
      invariant WalkEntries(es, f) == Prefixed(done, WalkEntries(es[i..], f))
    {
      EntrySize(es, i);
      WalkEntriesAt(es, i, f);
      var v := VisitSlot(es[i].value, f);
      if v.Failure? {
        return Failure(v.error);
      }
      PrefixedSnoc(done, Entry(es[i].key, v.value), WalkEntries(es[i + 1..], f));
      done := done + [Entry(es[i].key, v.value)];
      i := i + 1;
    }
    PrefixedAll(es, done);
    r := Success(done);
  }

  /** The loop over a list: each element, read from the list as it is at
      that point, picks the slot to walk. */
  method WalkList(xs: seq<Value>, f: Value -> Value) returns (r: Result<seq<Value>>)
    requires NonGrowing(f)
    ensures r == WalkIndexed(xs, 0, f)
    decreases 1 + ListSize(xs), 0, 0
  {
    var cur := xs;
    var i := 0;
    while i < |cur|
      invariant |cur| == |xs| && 0 <= i <= |cur|
      invariant ListSize(cur) <= ListSize(xs)
      invariant WalkIndexed(xs, 0, f) == WalkIndexed(cur, i, f)
    {
      var j := PyIndex(cur[i], |cur|);
      if j.None? {
        return Failure(Crash);
      }
      ElementSize(cur, j.value);
      var v := VisitSlot(cur[j.value], f);
      if v.Failure? {
        return Failure(v.error);
      }
      UpdateSize(cur, j.value, v.value);
      cur := cur[j.value := v.value];
      i := i + 1;
    }
    return Success(cur);
  }

  /** One pass of the loop body over the slot `v`: a dict is walked, a list
      has each element walked and is then passed through `f`. */
  method VisitSlot(v: Value, f: Value -> Value) returns (r: Result<Value>)
    requires NonGrowing(f)
    ensures r == WalkSlot(v, f)
    decreases Size(v), 2, 0
  {
    match v {
      case Obj(_) =>
        r := WalkGridOptions(v, f);
      case List(xs) =>
        var ys := WalkElements(xs, f);
        if ys.Failure? {
          return Failure(ys.error);
        }
        r := Success(f(List(ys.value)));
      case _ =>
        r := Success(v);
    }
  }

  /** `for elem in grid_opts[k]: walk_grid_options(elem, function)`. */
  method WalkElements(xs: seq<Value>, f: Value -> Value) returns (r: Result<seq<Value>>)
    requires NonGrowing(f)
    ensures r == WalkElems(xs, f)
    decreases 1 + ListSize(xs), 0, 0
  {
    var ys: seq<Value> := [];
    var i := 0;
    PrefixedNothing(xs, WalkElems(xs, f));
    while i < |xs|
      invariant 0 <= i <= |xs|
      invariant WalkElems(xs, f) == Prefixed(ys, WalkElems(xs[i..], f))
    {
      ElementSize(xs, i);
      WalkElemsAt(xs, i, f);
      var y := WalkGridOptions(xs[i], f);
      if y.Failure? {
        return Failure(y.error);
      }
      PrefixedSnoc(ys, y.value, WalkElems(xs[i + 1..], f));
      ys := ys + [y.value];
      i := i + 1;
    }
    PrefixedAll(xs, ys);
    r := Success(ys);
  }

  /** Before the first pass of a loop, nothing is walked yet. */
  lemma PrefixedNothing<S, T>(xs: seq<S>, r: Result<seq<T>>)
    ensures xs[0..] == xs && r == Prefixed([], r)
  {
    if r.Success? {
      assert [] + r.value == r.value;
    }
  }

  /** One more walked item moves from the rest of the walk to the part
      done. */
  lemma PrefixedSnoc<T>(done: seq<T>, x: T, rest: Result<seq<T>>)
    ensures Prefixed(done, Prefixed([x], rest)) == Prefixed(done + [x], rest)
  {
    if rest.Success? {
      assert done + ([x] + rest.value) == (done + [x]) + rest.value;
    }
  }

  /** After the last pass of a loop, the part done is the whole walk. */
  lemma PrefixedAll<S, T>(xs: seq<S>, done: seq<T>)
    ensures xs[|xs|..] == [] && Prefixed(done, Success([])) == Success(done)
  {
    assert done + [] == done;
  }

  /** The walk of the entries from `i` on: the slot at `i`, then the rest. */
  lemma WalkEntriesAt(es: seq<Entry>, i: nat, f: Value -> Value)
    requires NonGrowing(f) && i < |es|
    ensures WalkEntries(es[i..], f) ==
      match WalkSlot(es[i].value, f)
      case Failure(e) => Failure(e)
      case Success(v) => Prefixed([Entry(es[i].key, v)], WalkEntries(es[i + 1..], f))
  {
    assert es[i..][0] == es[i] && es[i..][1..] == es[i + 1..];
  }

  /** The walk of the elements from `i` on: the element at `i`, then the
      rest. */
  lemma WalkElemsAt(xs: seq<Value>, i: nat, f: Value -> Value)
    requires NonGrowing(f) && i < |xs|
    ensures WalkElems(xs[i..], f) ==
      match Walk(xs[i], f)
      case Failure(e) => Failure(e)
      case Success(y) => Prefixed([y], WalkElems(xs[i + 1..], f))
  {
    assert xs[i..][0] == xs[i] && xs[i..][1..] == xs[i + 1..];
  }

  /** `b` is what a walk may leave of `a`: every dict keeps its keys in their
      order, every scalar stays as it is, and only list-valued slots may
      change. */
  ghost predicate Kept(a: Value, b: Value)
    decreases a, 1
  {
    match a
    case Obj(es) =>
      b.Obj? && Keys(b.entries) == Keys(es) &&
      forall i :: 0 <= i < |es| ==> SlotKept(es[i].value, b.entries[i].value)
    case List(xs) =>
      b.List? && |b.items| == |xs| &&
      forall i :: 0 <= i < |xs| ==> SlotKept(xs[i], b.items[i])
    case _ => b == a
  }

  /** What a walk may leave of the slot `a`: a list slot may become anything
      `f` returns, anything else is kept as above. */
  ghost predicate SlotKept(a: Value, b: Value)
    decreases a, 2
  {
    a.List? || Kept(a, b)
  }

  lemma {:induction false} KeptReflexive(a: Value)
    ensures Kept(a, a)
  {
    match a
    case Obj(es) =>
      forall i | 0 <= i < |es| ensures SlotKept(es[i].value, es[i].value) {
        KeptReflexive(es[i].value);
      }
    case List(xs) =>
      forall i | 0 <= i < |xs| ensures SlotKept(xs[i], xs[i]) {
        KeptReflexive(xs[i]);
      }
    case _ =>
  }

  lemma {:induction false} KeptTransitive(a: Value, b: Value, c: Value)
    requires Kept(a, b) && Kept(b, c)
    ensures Kept(a, c)
    decreases a, 1
  {
    match a
    case Obj(es) =>
      KeysAt(b.entries);
      forall i | 0 <= i < |es| ensures SlotKept(es[i].value, c.entries[i].value) {
        assert Keys(b.entries)[i] == b.entries[i].key;
        SlotKeptTransitive(es[i].value, b.entries[i].value, c.entries[i].value);
      }
    case List(xs) =>
      forall i | 0 <= i < |xs| ensures SlotKept(xs[i], c.items[i]) {
        SlotKeptTransitive(xs[i], b.items[i], c.items[i]);
      }
    case _ =>
  }

  lemma {:induction false} SlotKeptTransitive(a: Value, b: Value, c: Value)
    requires SlotKept(a, b) && SlotKept(b, c)
    ensures SlotKept(a, c)
    decreases a, 2
  {
    if !a.List? {
      KeptTransitive(a, b, c);
    }
  }

  /** The walk never adds, removes or reorders a key of a dict it visits,
      and leaves every scalar slot alone: only list-valued slots are
      reassigned. */
  lemma {:induction false} WalkKeepsKeys(t: Value, f: Value -> Value)
    requires NonGrowing(f)
    ensures Walk(t, f).Success? ==> Kept(t, Walk(t, f).value)
    decreases Size(t), 1, 0
  {
    match t
    case Obj(es) => WalkEntriesKeepsKeys(es, f);
    case List(xs) => WalkIndexedKeepsKeys(xs, 0, f);
    case _ =>
  }

  lemma {:induction false} WalkSlotKeepsKeys(v: Value, f: Value -> Value)
    requires NonGrowing(f)
    ensures WalkSlot(v, f).Success? ==> SlotKept(v, WalkSlot(v, f).value)
    decreases Size(v), 2, 0
  {
    if v.Obj? {
      WalkKeepsKeys(v, f);
    }
  }

  lemma {:induction false} WalkEntriesKeepsKeys(es: seq<Entry>, f: Value -> Value)
    requires NonGrowing(f)
    ensures WalkEntries(es, f).Success? ==>
      forall i :: 0 <= i < |es| ==> SlotKept(es[i].value, WalkEntries(es, f).value[i].value)
    decreases 1 + EntriesSize(es), 0, 0
  {
    if es != [] && WalkEntries(es, f).Success? {
      WalkSlotKeepsKeys(es[0].value, f);
      WalkEntriesKeepsKeys(es[1..], f);
    }
  }

  lemma {:induction false} WalkIndexedKeepsKeys(cur: seq<Value>, i: nat, f: Value -> Value)
    requires NonGrowing(f) && i <= |cur|
    ensures WalkIndexed(cur, i, f).Success? ==>
      forall k :: 0 <= k < |cur| ==> SlotKept(cur[k], WalkIndexed(cur, i, f).value[k])
    decreases 1 + ListSize(cur), 0, |cur| - i
  {
    if i == |cur| {
      forall k | 0 <= k < |cur| ensures SlotKept(cur[k], cur[k]) {
        KeptReflexive(cur[k]);
      }
    } else if PyIndex(cur[i], |cur|).Some? && WalkIndexed(cur, i, f).Success? {
      var j := PyIndex(cur[i], |cur|).value;
      ElementSize(cur, j);
      var v := WalkSlot(cur[j], f).value;
      WalkSlotKeepsKeys(cur[j], f);
      UpdateSize(cur, j, v);
      var next := cur[j := v];
      WalkIndexedKeepsKeys(next, i + 1, f);
      var r := WalkIndexed(next, i + 1, f).value;
      forall k | 0 <= k < |cur| ensures SlotKept(cur[k], r[k]) {
        if k != j {
          KeptReflexive(cur[k]);
        }
        SlotKeptTransitive(cur[k], next[k], r[k]);
      }
    }
  }

  /** `f` returns every list as it is. */
  ghost predicate FixesLists(f: Value -> Value) {
    forall v: Value :: v.List? ==> f(v) == v
  }

  /** The function GridBuilder passes: a JsCode value becomes its injected
      code, anything else is returned as it is. */
  function UnwrapCode(v: Value): (r: Value)
    ensures v.Code? ==> r == Str(v.injected)
    ensures !v.Code? ==> r == v
  {
    if v.Code? then Str(v.injected) else v
  }

  /** A walk with a function that fixes lists changes nothing. */
  lemma {:induction false} WalkFixed(t: Value, f: Value -> Value)
    requires FixesLists(f)
    ensures NonGrowing(f) && (Walk(t, f).Success? ==> Walk(t, f).value == t)
    decreases Size(t), 1, 0
  {
    match t
    case Obj(es) => WalkEntriesFixed(es, f);
    case List(xs) => WalkIndexedFixed(xs, 0, f);
    case _ =>
  }

  lemma {:induction false} WalkSlotFixed(v: Value, f: Value -> Value)
    requires FixesLists(f)
    ensures NonGrowing(f) && (WalkSlot(v, f).Success? ==> WalkSlot(v, f).value == v)
    decreases Size(v), 2, 0
  {
    match v
    case Obj(_) => WalkFixed(v, f);
    case List(xs) => WalkElemsFixed(xs, f);
    case _ =>
  }

  lemma {:induction false} WalkEntriesFixed(es: seq<Entry>, f: Value -> Value)
    requires FixesLists(f)
    ensures NonGrowing(f) && (WalkEntries(es, f).Success? ==> WalkEntries(es, f).value == es)
    decreases 1 + EntriesSize(es), 0, 0
  {
    if es != [] {
      WalkSlotFixed(es[0].value, f);
      WalkEntriesFixed(es[1..], f);
      if WalkEntries(es, f).Success? {
        assert [es[0]] + es[1..] == es;
      }
    }
  }

  lemma {:induction false} WalkElemsFixed(xs: seq<Value>, f: Value -> Value)
    requires FixesLists(f)
    ensures NonGrowing(f) && (WalkElems(xs, f).Success? ==> WalkElems(xs, f).value == xs)
    decreases 1 + ListSize(xs), 0, 0
  {
    if xs != [] {
      WalkFixed(xs[0], f);
      WalkElemsFixed(xs[1..], f);
      if WalkElems(xs, f).Success? {
        assert [xs[0]] + xs[1..] == xs;
      }
    }
  }

  lemma {:induction false} WalkIndexedFixed(cur: seq<Value>, i: nat, f: Value -> Value)
    requires FixesLists(f) && i <= |cur|
    ensures NonGrowing(f) && (WalkIndexed(cur, i, f).Success? ==> WalkIndexed(cur, i, f).value == cur)
    decreases 1 + ListSize(cur), 0, |cur| - i
  {
    if i < |cur| && PyIndex(cur[i], |cur|).Some? {
      var j := PyIndex(cur[i], |cur|).value;
      ElementSize(cur, j);
      WalkSlotFixed(cur[j], f);
      if WalkSlot(cur[j], f).Success? {
        assert cur[j := cur[j]] == cur;
        WalkIndexedFixed(cur, i + 1, f);
      }
    }
  }

  /** As written, GridBuilder's walk never unwraps a JsCode value: its
      function only ever sees lists, and returns those unchanged. */
  lemma JsCodeNeverUnwrapped(t: Value)
    ensures NonGrowing(UnwrapCode)
    ensures Walk(t, UnwrapCode).Success? ==> Walk(t, UnwrapCode).value == t
  {
    WalkFixed(t, UnwrapCode);
  }

  /** For example, a cell renderer given as JsCode stays JsCode. */
  lemma JsCodeRendererStays()
    ensures NonGrowing(UnwrapCode)
    ensures Walk(Obj([Entry("cellRenderer", Code("f"))]), UnwrapCode)
         == Success(Obj([Entry("cellRenderer", Code("f"))]))
  {
    JsCodeNeverUnwrapped(Obj([Entry("cellRenderer", Code("f"))]));
  }

  /** Options without a list directly inside a list. Walking such a tree
      never uses an element as an index, so it cannot fail. */
  ghost predicate Walkable(v: Value) {
    match v
    case Obj(es) => forall i :: 0 <= i < |es| ==> Walkable(es[i].value)
    case List(xs) => forall i :: 0 <= i < |xs| ==> !xs[i].List? && Walkable(xs[i])
    case _ => true
  }

  /** Walking a dict of walkable options always succeeds. */
  lemma {:induction false} WalkSucceeds(t: Value, f: Value -> Value)
    requires NonGrowing(f) && !t.List? && Walkable(t)
    ensures Walk(t, f).Success?
    decreases Size(t), 1, 0
  {
    if t.Obj? {
      WalkEntriesSucceeds(t.entries, f);
    }
  }

  lemma {:induction false} WalkSlotSucceeds(v: Value, f: Value -> Value)
    requires NonGrowing(f) && Walkable(v)
    ensures WalkSlot(v, f).Success?
    decreases Size(v), 2, 0
  {
    match v
    case Obj(_) => WalkSucceeds(v, f);
    case List(xs) => WalkElemsSucceeds(xs, f);
    case _ =>
  }

  lemma {:induction false} WalkEntriesSucceeds(es: seq<Entry>, f: Value -> Value)
    requires NonGrowing(f) && forall i :: 0 <= i < |es| ==> Walkable(es[i].value)
    ensures WalkEntries(es, f).Success?
    decreases 1 + EntriesSize(es), 0, 0
  {
    if es != [] {
      WalkSlotSucceeds(es[0].value, f);
      WalkEntriesSucceeds(es[1..], f);
    }
  }

  lemma {:induction false} WalkElemsSucceeds(xs: seq<Value>, f: Value -> Value)
    requires NonGrowing(f) && forall i :: 0 <= i < |xs| ==> !xs[i].List? && Walkable(xs[i])
    ensures WalkElems(xs, f).Success?
    decreases 1 + ListSize(xs), 0, 0
  {
    if xs != [] {
      WalkSucceeds(xs[0], f);
      WalkElemsSucceeds(xs[1..], f);
    }
  }

  /** A list nested in a list is walked by index: a string element there
      is not a valid index, so the walk fails. */
  lemma NestedListOfStringsFails(f: Value -> Value)
    requires NonGrowing(f)
    ensures Walk(Obj([Entry("rows", List([List([Str("a")])]))]), f) == Failure(Crash)
  {
    assert WalkElems([List([Str("a")])], f) == Failure(Crash) by {
      assert Walk(List([Str("a")]), f) == Failure(Crash);
    }
  }
}
