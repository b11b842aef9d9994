/** The grid options tree: the JSON-like values the builders store, and
    Python's insertion-ordered `dict` as a sequence of entries.

    A dict is a `seq<Entry>`; `Get` is `d.get(k)`, `Put` is `d[k] = v`
    (an existing key keeps its place, a new key goes last), `Without` is a
    series of `d.pop(k, None)` and `PutAll` is `d.update(other)`. */
module Tree {
  import opened Outcomes

  datatype Value =
    | Null
    | Bool(b: bool)
    | Int(i: int)
    | Str(s: string)
    | Code(injected: string)  // a JsCode object; `injected` is what its `code` property returns
    | List(items: seq<Value>)
    | Obj(entries: seq<Entry>)

  datatype Entry = Entry(key: string, value: Value)

  /** The keys of a dict, in insertion order. */
  function Keys(es: seq<Entry>): (ks: seq<string>)
    ensures |ks| == |es|
  {
    if es == [] then [] else [es[0].key] + Keys(es[1..])
  }

  lemma {:induction false} KeysAt(es: seq<Entry>)
    ensures forall i :: 0 <= i < |es| ==> Keys(es)[i] == es[i].key
  {
    if es != [] {
      KeysAt(es[1..]);
    }
  }

  /** Appending entries appends their keys. */
  lemma {:induction false} KeysAppend(a: seq<Entry>, b: seq<Entry>)
    ensures Keys(a + b) == Keys(a) + Keys(b)
  {
    if a != [] {
      assert (a + b)[0] == a[0] && (a + b)[1..] == a[1..] + b;
      KeysAppend(a[1..], b);
      calc {
        Keys(a + b);
        [a[0].key] + Keys(a[1..] + b);
        [a[0].key] + (Keys(a[1..]) + Keys(b));
        ([a[0].key] + Keys(a[1..])) + Keys(b);
      }
    } else {
      assert a + b == b;
    }
  }

  /** A new last entry adds its key last. */
  lemma KeysSnoc(es: seq<Entry>, e: Entry)
    ensures Keys(es + [e]) == Keys(es) + [e.key]
  {
    KeysAppend(es, [e]);
  }

  /** An entry appended, then more entries, is those entries appended. */
  lemma AppendEntries(es: seq<Entry>, e: Entry, rest: seq<Entry>, more: seq<Entry>)
    requires more == [e] + rest
    ensures (es + [e]) + rest == es + more
  {
  }

  /** The values of a dict, in insertion order: `list(d.values())`. */
  function Values(es: seq<Entry>): (vs: seq<Value>)
    ensures |vs| == |es|
    ensures forall i :: 0 <= i < |es| ==> vs[i] == es[i].value
  {
    if es == [] then [] else [es[0].value] + Values(es[1..])
  }

  predicate Distinct(ks: seq<string>) {
    forall i, j :: 0 <= i < j < |ks| ==> ks[i] != ks[j]
  }

  lemma DistinctSnoc(ks: seq<string>, k: string)
    requires Distinct(ks) && k !in ks
    ensures Distinct(ks + [k])
  {
    var ks' := ks + [k];
    forall i, j | 0 <= i < j < |ks'| ensures ks'[i] != ks'[j] {
      assert ks'[i] == ks[i];
    }
  }

  predicate UniqueKeys(es: seq<Entry>) {
    Distinct(Keys(es))
  }

  /** Every dict in the tree has distinct keys, as a Python dict does. */
  predicate WellFormed(v: Value) {
    match v
    case List(xs) => forall x :: x in xs ==> WellFormed(x)
    case Obj(es) => UniqueKeys(es) && forall e :: e in es ==> WellFormed(e.value)
    case _ => true
  }

  /** `d.get(k)`: the value stored under `k`, if any. */
  function Get(es: seq<Entry>, k: string): (r: Option<Value>)
    ensures r.Some? <==> k in Keys(es)
  {
    if es == [] then None
    else if es[0].key == k then Some(es[0].value)
    else Get(es[1..], k)
  }

  /** What `Get` finds is an entry of the dict. */
  lemma {:induction false} GetIn(es: seq<Entry>, k: string)
    requires k in Keys(es)
    ensures Entry(k, Get(es, k).value) in es
  {
    if es[0].key != k {
      GetIn(es[1..], k);
    }
  }

  /** In a dict with distinct keys, `Get` finds the entry at every position. */
  lemma {:induction false} GetAt(es: seq<Entry>, i: nat)
    requires UniqueKeys(es) && i < |es|
    ensures Get(es, es[i].key) == Some(es[i].value)
  {
    if i > 0 {
      assert Keys(es)[0] != Keys(es)[i];
      assert Keys(es[1..]) == Keys(es)[1..];
      GetAt(es[1..], i - 1);
    }
  }

  /** `d[k] = v`: an existing key keeps its place, a new one goes last. */
  function Put(es: seq<Entry>, k: string, v: Value): (r: seq<Entry>)
    ensures k in Keys(es) ==> Keys(r) == Keys(es)
    ensures k !in Keys(es) ==> Keys(r) == Keys(es) + [k]
    ensures Get(r, k) == Some(v)
    ensures forall k' :: k' != k ==> Get(r, k') == Get(es, k')
  {
    if es == [] then [Entry(k, v)]
    else if es[0].key == k then
      var r := [Entry(k, v)] + es[1..];
      assert r[1..] == es[1..];
      r
    else
      var rest := Put(es[1..], k, v);
      var r := [es[0]] + rest;
      assert r[1..] == rest;
      assert k !in Keys(es) ==> Keys(r) == [es[0].key] + (Keys(es[1..]) + [k]) == Keys(es) + [k];
      r
  }

  /** Storing a new key appends it. */
  lemma {:induction false} PutNew(es: seq<Entry>, k: string, v: Value)
    requires k !in Keys(es)
    ensures Put(es, k, v) == es + [Entry(k, v)]
  {
    if es != [] {
      assert es[0].key == Keys(es)[0] != k;
      assert Keys(es[1..]) == Keys(es)[1..];
      PutNew(es[1..], k, v);
      assert Put(es, k, v) == [es[0]] + Put(es[1..], k, v);
      assert es == [es[0]] + es[1..];
    }
  }

  /** Storing the value a key already has changes nothing. */
  lemma {:induction false} PutSame(es: seq<Entry>, k: string)
    requires k in Keys(es)
    ensures Put(es, k, Get(es, k).value) == es
  {
    if es[0].key != k {
      PutSame(es[1..], k);
    }
  }

  /** Every entry after `d[k] = v` was there before or is the new one. */
  lemma {:induction false} PutIn(es: seq<Entry>, k: string, v: Value)
    ensures forall e :: e in Put(es, k, v) ==> e in es || e == Entry(k, v)
  {
    if es != [] && es[0].key != k {
      PutIn(es[1..], k, v);
    }
  }

  /** Storing under the same key twice keeps only the second value. */
  lemma {:induction false} PutPut(es: seq<Entry>, k: string, a: Value, b: Value)
    ensures Put(Put(es, k, a), k, b) == Put(es, k, b)
  {
    if es != [] && es[0].key != k {
      PutPut(es[1..], k, a, b);
      assert Put(es, k, a)[1..] == Put(es[1..], k, a);
    }
  }

  /** `d[k] = v` keeps every dict of the tree well formed. */
  lemma PutWellFormed(es: seq<Entry>, k: string, v: Value)
    requires WellFormed(Obj(es)) && WellFormed(v)
    ensures WellFormed(Obj(Put(es, k, v)))
  {
    PutIn(es, k, v);
    if k !in Keys(es) {
      var ks := Keys(es) + [k];
      forall i, j | 0 <= i < j < |ks| ensures ks[i] != ks[j] {
        assert ks[i] == Keys(es)[i];
      }
    }
  }

  /** Removes every key of `ks`: `d.pop(k, None)` for each `k` in `ks`. */
  function Without(es: seq<Entry>, ks: set<string>): (r: seq<Entry>)
    ensures forall k :: Get(r, k) == if k in ks then None else Get(es, k)
    ensures forall e :: e in r ==> e in es
  {
    if es == [] then []
    else if es[0].key in ks then Without(es[1..], ks)
    else
      var rest := Without(es[1..], ks);
      var r := [es[0]] + rest;
      assert r[1..] == rest;
      r
  }

  lemma {:induction false} WithoutWellFormed(es: seq<Entry>, ks: set<string>)
    requires WellFormed(Obj(es))
    ensures WellFormed(Obj(Without(es, ks)))
  {
    if es != [] {
      assert UniqueKeys(es[1..]) by {
        assert Keys(es[1..]) == Keys(es)[1..];
      }
      WithoutWellFormed(es[1..], ks);
      if es[0].key !in ks {
        var rest := Without(es[1..], ks);
        assert es[0].key !in Keys(rest) by {
          assert es[0].key !in Keys(es[1..]) by {
            assert Keys(es)[0] == es[0].key;
            assert Keys(es[1..]) == Keys(es)[1..];
          }
        }
        assert Keys([es[0]] + rest) == [es[0].key] + Keys(rest);
      }
    }
  }

  /** Popping the keys of `a` and then those of `b` pops the keys of both. */
  lemma {:induction false} WithoutWithout(es: seq<Entry>, a: set<string>, b: set<string>)
    ensures Without(Without(es, a), b) == Without(es, a + b)
  {
    if es != [] {
      WithoutWithout(es[1..], a, b);
    }
  }

  /** Storing under a key that is popped afterwards leaves no trace. */
  lemma {:induction false} WithoutPut(es: seq<Entry>, k: string, v: Value, ks: set<string>)
    requires k in ks
    ensures Without(Put(es, k, v), ks) == Without(es, ks)
  {
    if es == [] {
      assert Without([Entry(k, v)], ks) == Without([Entry(k, v)][1..], ks);
    } else if es[0].key == k {
      assert ([Entry(k, v)] + es[1..])[1..] == es[1..];
    } else {
      WithoutPut(es[1..], k, v, ks);
      assert Put(es, k, v)[1..] == Put(es[1..], k, v);
    }
  }

  /** `d.update(kvs)`: every entry of `kvs` is stored in turn. */
  function PutAll(es: seq<Entry>, kvs: seq<Entry>): (r: seq<Entry>)
    ensures forall k :: k !in Keys(kvs) ==> Get(r, k) == Get(es, k)
    ensures forall k :: k in Keys(r) <==> k in Keys(es) || k in Keys(kvs)
    ensures |es| <= |r|
    decreases |kvs|
  {
    if kvs == [] then es
    else
      var es' := Put(es, kvs[0].key, kvs[0].value);
      assert Keys(kvs) == [kvs[0].key] + Keys(kvs[1..]);
      PutAll(es', kvs[1..])
  }

  /** Every entry after an update was there before or came with the update. */
  lemma {:induction false} PutAllIn(es: seq<Entry>, kvs: seq<Entry>)
    ensures forall e :: e in PutAll(es, kvs) ==> e in es || e in kvs
    decreases |kvs|
  {
    if kvs != [] {
      PutIn(es, kvs[0].key, kvs[0].value);
      PutAllIn(Put(es, kvs[0].key, kvs[0].value), kvs[1..]);
      assert kvs[0] in kvs;
      assert forall e :: e in kvs[1..] ==> e in kvs;
    }
  }

  /** With distinct keys in `kvs`, the update stores each of them. */
  lemma {:induction false} PutAllGet(es: seq<Entry>, kvs: seq<Entry>, k: string)
    requires UniqueKeys(kvs) && k in Keys(kvs)
    ensures Get(PutAll(es, kvs), k) == Get(kvs, k)
    decreases |kvs|
  {
    KeysAt(kvs);
    assert Keys(kvs[1..]) == Keys(kvs)[1..];
    if kvs[0].key != k {
      PutAllGet(Put(es, kvs[0].key, kvs[0].value), kvs[1..], k);
    } else {
      assert k !in Keys(kvs[1..]);
    }
  }

  /** An update keeps the keys distinct whatever it holds, since each
      assignment replaces or appends. */
  lemma {:induction false} PutAllWellFormed(es: seq<Entry>, kvs: seq<Entry>)
    requires WellFormed(Obj(es)) && forall e :: e in kvs ==> WellFormed(e.value)
    ensures WellFormed(Obj(PutAll(es, kvs)))
    decreases |kvs|
  {
    if kvs != [] {
      assert kvs[0] in kvs;
      PutWellFormed(es, kvs[0].key, kvs[0].value);
      assert forall e :: e in kvs[1..] ==> e in kvs;
      PutAllWellFormed(Put(es, kvs[0].key, kvs[0].value), kvs[1..]);
    }
  }

  /** An entry of the update that no later entry overrides is stored. */
  lemma {:induction false} PutAllLast(es: seq<Entry>, kvs: seq<Entry>, i: nat)
    requires i < |kvs| && forall j :: i < j < |kvs| ==> kvs[j].key != kvs[i].key
    ensures Get(PutAll(es, kvs), kvs[i].key) == Some(kvs[i].value)
    decreases i
  {
    var es' := Put(es, kvs[0].key, kvs[0].value);
    if i == 0 {
      KeysAt(kvs[1..]);
      assert kvs[i].key !in Keys(kvs[1..]);
    } else {
      assert kvs[1..][i - 1] == kvs[i];
      PutAllLast(es', kvs[1..], i - 1);
    }
  }

  lemma {:induction false} WithoutPutAll(es: seq<Entry>, kvs: seq<Entry>, ks: set<string>)
    requires forall k :: k in Keys(kvs) ==> k in ks
    ensures Without(PutAll(es, kvs), ks) == Without(es, ks)
    decreases |kvs|
  {
    if kvs != [] {
      assert Keys(kvs[1..]) == Keys(kvs)[1..];
      assert kvs[0].key == Keys(kvs)[0];
      WithoutPutAll(Put(es, kvs[0].key, kvs[0].value), kvs[1..], ks);
      WithoutPut(es, kvs[0].key, kvs[0].value, ks);
    }
  }

  /** The number of nodes of a tree. */
  function Size(v: Value): nat {
    match v
    case List(xs) => 1 + ListSize(xs)
    case Obj(es) => 1 + EntriesSize(es)
    case _ => 1
  }

  function ListSize(xs: seq<Value>): nat {
    if xs == [] then 0 else Size(xs[0]) + ListSize(xs[1..])
  }

  function EntriesSize(es: seq<Entry>): nat {
    if es == [] then 0 else Size(es[0].value) + EntriesSize(es[1..])
  }

  /** Each element of a list is part of the list's size. */
  lemma {:induction false} ElementSize(xs: seq<Value>, j: nat)
    requires j < |xs|
    ensures Size(xs[j]) <= ListSize(xs)
  {
    if j > 0 {
      ElementSize(xs[1..], j - 1);
    }
  }

  /** Each value of a dict is part of the dict's size. */
  lemma {:induction false} EntrySize(es: seq<Entry>, j: nat)
    requires j < |es|
    ensures Size(es[j].value) <= EntriesSize(es)
  {
    if j > 0 {
      EntrySize(es[1..], j - 1);
    }
  }

  /** Replacing one element of a list changes its size by the difference. */
  lemma {:induction false} UpdateSize(xs: seq<Value>, j: nat, y: Value)
    requires j < |xs|
    ensures ListSize(xs[j := y]) == ListSize(xs) - Size(xs[j]) + Size(y)
  {
    if j > 0 {
      assert xs[j := y][1..] == xs[1..][j - 1 := y];
      UpdateSize(xs[1..], j - 1, y);
    } else {
      assert xs[j := y][1..] == xs[1..];
    }
  }
}
