/** The JSON values the serialisers produce: a stand-in for the matjson value tree.
    `Obj` is matjson::Object, an association list kept in insertion order. */
module Json {

  datatype Option<T> = Nothing | Some(value: T)

  datatype Json =
    | Null
    | Bool(b: bool)
    | Int(n: int)
    | Str(s: string)
    | Arr(elems: seq<Json>)
    | Obj(entries: seq<(string, Json)>)

  type Entries = seq<(string, Json)>

  /** The keys of an object, in insertion order. */
  function Keys(o: Entries): (ks: seq<string>)
    ensures |ks| == |o|
  {
    if o == [] then [] else [o[0].0] + Keys(o[1..])
  }

  lemma {:induction false} KeysIndex(o: Entries, i: int)
    requires 0 <= i < |o|
    ensures Keys(o)[i] == o[i].0
  {
    if i > 0 {
      KeysIndex(o[1..], i - 1);
    }
  }

  predicate HasKey(o: Entries, k: string)
  {
    k in Keys(o)
  }

  predicate DistinctKeys(o: Entries)
  {
    forall i, j :: 0 <= i < j < |o| ==> o[i].0 != o[j].0
  }

  lemma {:induction false} KeysAppend(a: Entries, b: Entries)
    ensures Keys(a + b) == Keys(a) + Keys(b)
  {
    if a != [] {
      assert (a + b)[0] == a[0] && (a + b)[1..] == a[1..] + b;
      KeysAppend(a[1..], b);
    } else {
      assert a + b == b;
    }
  }

  /** No string occurs twice: each one differs from every string before it. */
  predicate Distinct(ks: seq<string>)
  {
    ks == [] || (ks[|ks| - 1] !in ks[..|ks| - 1] && Distinct(ks[..|ks| - 1]))
  }

  lemma {:induction false} DistinctIndex(ks: seq<string>, i: int, j: int)
    requires Distinct(ks) && 0 <= i < j < |ks|
    ensures ks[i] != ks[j]
  {
    var init := ks[..|ks| - 1];
    if j == |ks| - 1 {
      assert ks[i] == init[i];
    } else {
      DistinctIndex(init, i, j);
    }
  }

  lemma DistinctOne(k: string)
    ensures Distinct([k])
  {
    assert [k][..0] == [];
  }

  lemma DistinctSnoc(ks: seq<string>, k: string)
    requires Distinct(ks) && k !in ks
    ensures Distinct(ks + [k])
  {
    assert (ks + [k])[..|ks|] == ks;
  }

  lemma DistinctKeysByKeys(o: Entries)
    requires Distinct(Keys(o))
    ensures DistinctKeys(o)
  {
    forall i, j | 0 <= i < j < |o|
      ensures o[i].0 != o[j].0
    {
      DistinctIndex(Keys(o), i, j);
      KeysIndex(o, i);
      KeysIndex(o, j);
    }
  }

  /** The value stored under `k`, if any: the entry bearing `k` that was inserted
      last (in an object with distinct keys, the only one). */
  function Lookup(o: Entries, k: string): Option<Json>
  {
    if o == [] then Nothing
    else if o[|o| - 1].0 == k then Some(o[|o| - 1].1)
    else Lookup(o[..|o| - 1], k)
  }

  /** A key is absent exactly when looking it up finds nothing. */
  lemma {:induction false} LookupAbsent(o: Entries, k: string)
    ensures Lookup(o, k) == Nothing <==> !HasKey(o, k)
  {
    if o != [] {
      var init := o[..|o| - 1];
      assert o == init + [o[|o| - 1]];
      KeysAppend(init, [o[|o| - 1]]);
      LookupAbsent(init, k);
    }
  }

  /** The entry a conditional insertion contributes: `(key, val)` when it happens. */
  function Optional(keep: bool, key: string, val: Json): Entries
  {
    if keep then [(key, val)] else []
  }

  /** The key a conditional insertion contributes, when it happens. */
  function Present(keep: bool, key: string): seq<string>
  {
    if keep then [key] else []
  }

  lemma OptionalKeys(keep: bool, key: string, val: Json)
    ensures Keys(Optional(keep, key, val)) == Present(keep, key)
  {
  }

  /** The keys after one more conditional insertion. */
  lemma KeysSnoc(o: Entries, keep: bool, key: string, val: Json)
    ensures Keys(o + Optional(keep, key, val)) == Keys(o) + Present(keep, key)
  {
    KeysAppend(o, Optional(keep, key, val));
  }

  /** Every key of `o` is one of `used`. */
  predicate KeysAmong(o: Entries, used: seq<string>)
  {
    forall x :: x in Keys(o) ==> x in used
  }

  /** A conditional insertion of a key outside `used` keeps the keys distinct. */
  lemma {:induction false} DistinctExtend(o: Entries, used: seq<string>, keep: bool, key: string, val: Json)
    requires Distinct(Keys(o)) && KeysAmong(o, used) && key !in used
    ensures Distinct(Keys(o + Optional(keep, key, val)))
    ensures KeysAmong(o + Optional(keep, key, val), used + [key])
  {
    KeysSnoc(o, keep, key, val);
    var ks := Keys(o);
    if keep {
      assert (ks + [key])[..|ks|] == ks;
    } else {
      assert ks + [] == ks;
    }
  }

  /** A lookup in the entries of one conditional insertion. */
  lemma LookupOptional(keep: bool, key: string, val: Json)
    ensures forall k :: Lookup(Optional(keep, key, val), k) == if keep && k == key then Some(val) else Nothing
  {
  }

  /** After one more conditional insertion, a lookup finds the new value under its
      key when the insertion happened, and otherwise what it found before. */
  lemma LookupSnoc(o: Entries, keep: bool, key: string, val: Json)
    ensures forall k :: Lookup(o + Optional(keep, key, val), k)
                        == if keep && k == key then Some(val) else Lookup(o, k)
  {
    if keep {
      assert (o + [(key, val)])[..|o|] == o;
    } else {
      assert o + [] == o;
    }
  }

  /** One conditional insertion `if (keep) obj[key] = val;` of a serialiser. */
  datatype Slot = Slot(keep: bool, key: string, val: Json)

  /** The entries a run of conditional insertions leaves in an empty object. */
  function Build(ss: seq<Slot>): Entries
  {
    if ss == [] then []
    else
      var s := ss[|ss| - 1];
      Build(ss[..|ss| - 1]) + Optional(s.keep, s.key, s.val)
  }

  /** The keys a run of insertions may assign, whether or not it does. */
  function SlotKeys(ss: seq<Slot>): (ks: seq<string>)
    ensures |ks| == |ss|
  {
    if ss == [] then [] else SlotKeys(ss[..|ss| - 1]) + [ss[|ss| - 1].key]
  }

  lemma {:induction false} SlotKeysIndex(ss: seq<Slot>, i: int)
    requires 0 <= i < |ss|
    ensures SlotKeys(ss)[i] == ss[i].key
  {
    if i < |ss| - 1 {
      SlotKeysIndex(ss[..|ss| - 1], i);
    }
  }

  /** The keys a run of insertions does assign, in order. */
  function KeptKeys(ss: seq<Slot>): seq<string>
  {
    if ss == [] then []
    else
      var s := ss[|ss| - 1];
      KeptKeys(ss[..|ss| - 1]) + Present(s.keep, s.key)
  }

  lemma BuildOne(s: Slot)
    ensures Build([s]) == Optional(s.keep, s.key, s.val)
    ensures SlotKeys([s]) == [s.key]
    ensures KeptKeys([s]) == Present(s.keep, s.key)
  {
    assert [s][..0] == [];
    assert [] + Optional(s.keep, s.key, s.val) == Optional(s.keep, s.key, s.val);
    assert [] + Present(s.keep, s.key) == Present(s.keep, s.key);
  }

  lemma KeptKeysSnoc(ss: seq<Slot>, s: Slot)
    ensures KeptKeys(ss + [s]) == KeptKeys(ss) + Present(s.keep, s.key)
  {
    assert (ss + [s])[..|ss|] == ss;
  }

  /** The object a run of insertions builds has exactly the kept keys, in order. */
  lemma {:induction false} BuildKeys(ss: seq<Slot>)
    ensures Keys(Build(ss)) == KeptKeys(ss)
  {
    if ss != [] {
      var init := ss[..|ss| - 1];
      var s := ss[|ss| - 1];
      BuildKeys(init);
      KeysSnoc(Build(init), s.keep, s.key, s.val);
    }
  }

  lemma BuildSnoc(ss: seq<Slot>, s: Slot)
    ensures Build(ss + [s]) == Build(ss) + Optional(s.keep, s.key, s.val)
  {
    assert (ss + [s])[..|ss|] == ss;
  }

  lemma SlotKeysSnoc(ss: seq<Slot>, s: Slot)
    ensures SlotKeys(ss + [s]) == SlotKeys(ss) + [s.key]
  {
    assert (ss + [s])[..|ss|] == ss;
  }

  /** Insertions none of which stores `v` leave no key whose value is `v`. */
  lemma {:induction false} BuildNever(ss: seq<Slot>, v: Json, k: string)
    requires forall i :: 0 <= i < |ss| && ss[i].keep ==> ss[i].val != v
    ensures Lookup(Build(ss), k) != Some(v)
  {
    if ss != [] {
      var init := ss[..|ss| - 1];
      var s := ss[|ss| - 1];
      LookupSnoc(Build(init), s.keep, s.key, s.val);
      BuildNever(init, v, k);
    }
  }

  /** Insertions under distinct keys leave distinct keys, all of them among the
      keys the insertions may assign. */
  lemma {:induction false} BuildDistinct(ss: seq<Slot>)
    requires Distinct(SlotKeys(ss))
    ensures Distinct(Keys(Build(ss))) && KeysAmong(Build(ss), SlotKeys(ss))
  {
    if ss != [] {
      var init := ss[..|ss| - 1];
      var s := ss[|ss| - 1];
      BuildDistinct(init);
      DistinctExtend(Build(init), SlotKeys(init), s.keep, s.key, s.val);
    }
  }

  /** Under distinct keys, each key reads back the value of its own insertion, or
      nothing when that insertion did not happen. */
  lemma {:induction false} BuildLookup(ss: seq<Slot>, i: int)
    requires Distinct(SlotKeys(ss)) && 0 <= i < |ss|
    ensures Lookup(Build(ss), ss[i].key) == if ss[i].keep then Some(ss[i].val) else Nothing
  {
    var init := ss[..|ss| - 1];
    var s := ss[|ss| - 1];
    assert Build(ss) == Build(init) + Optional(s.keep, s.key, s.val);
    LookupSnoc(Build(init), s.keep, s.key, s.val);
    if i < |ss| - 1 {
      SlotKeysIndex(ss, i);
      DistinctIndex(SlotKeys(ss), i, |ss| - 1);
      assert SlotKeys(ss)[..|ss| - 1] == SlotKeys(init) && init[i] == ss[i];
      BuildLookup(init, i);
    } else {
      assert SlotKeys(ss)[..|ss| - 1] == SlotKeys(init);
      BuildAbsent(init, s.key);
    }
  }

  /** A key no insertion may assign is absent. */
  lemma {:induction false} BuildAbsent(ss: seq<Slot>, k: string)
    requires k !in SlotKeys(ss)
    ensures Lookup(Build(ss), k) == Nothing
  {
    if ss != [] {
      var init := ss[..|ss| - 1];
      var s := ss[|ss| - 1];
      LookupSnoc(Build(init), s.keep, s.key, s.val);
      BuildAbsent(init, k);
    }
  }

  /** `obj[key] = val` on a matjson::Object: the entry bearing `k` is overwritten
      in place when there is one; otherwise a new entry is appended at the end. */
  function Put(o: Entries, k: string, v: Json): Entries
  {
    if o == [] then [(k, v)]
    else if o[0].0 == k then [(k, v)] + o[1..]
    else [o[0]] + Put(o[1..], k, v)
  }

  /** Assigning a key the object does not hold appends it. */
  lemma {:induction false} PutFresh(o: Entries, k: string, v: Json)
    requires !HasKey(o, k)
    ensures Put(o, k, v) == o + [(k, v)]
  {
    if o != [] {
      assert k != o[0].0 && !HasKey(o[1..], k);
      PutFresh(o[1..], k, v);
      assert o == [o[0]] + o[1..];
    }
  }

  /** The emptiness test of the setIfNotEmpty overloads: an array, object or
      string counts as present only when it has at least one element. */
  predicate NonEmptyContainer(v: Json)
  {
    match v
    case Arr(a) => |a| > 0
    case Obj(o) => |o| > 0
    case Str(s) => |s| > 0
    case _ => false
  }

  /** Assigning a key at the end of an object whose keys end up distinct is an
      append: the key was not there before. */
  lemma AppendAssigns(o: Entries, k: string, v: Json)
    requires DistinctKeys(o + [(k, v)])
    ensures Put(o, k, v) == o + [(k, v)]
  {
    forall i | 0 <= i < |o|
      ensures Keys(o)[i] != k
    {
      KeysIndex(o, i);
      assert (o + [(k, v)])[i] == o[i] && (o + [(k, v)])[|o|] == (k, v);
    }
    PutFresh(o, k, v);
  }

  /** Replaying an object with distinct keys one assignment at a time, with the
      overwriting semantics of `obj[key] = val`, appends every entry in turn. */
  lemma AssignsReplay(o: Entries, n: int)
    requires DistinctKeys(o) && 0 <= n < |o|
    ensures Put(o[..n], o[n].0, o[n].1) == o[..n + 1]
  {
    assert o[..n] + [o[n]] == o[..n + 1];
    AppendAssigns(o[..n], o[n].0, o[n].1);
  }

  /** The entries an initially empty object ends up with when every entry of `o`
      is assigned in turn with `obj[key] = val`. */
  function Replay(o: Entries): Entries
  {
    if o == [] then [] else Put(Replay(o[..|o| - 1]), o[|o| - 1].0, o[|o| - 1].1)
  }

  /** Assigning the entries of an object with distinct keys one at a time, with
      overwriting semantics, rebuilds exactly that object. */
  lemma {:induction false} ReplayDistinct(o: Entries)
    requires DistinctKeys(o)
    ensures Replay(o) == o
  {
    if o != [] {
      var n := |o| - 1;
      assert DistinctKeys(o[..n]) by {
        forall i, j | 0 <= i < j < n
          ensures o[..n][i].0 != o[..n][j].0
        {
          assert o[..n][i] == o[i] && o[..n][j] == o[j];
        }
      }
      ReplayDistinct(o[..n]);
      AssignsReplay(o, n);
      assert o[..n + 1] == o;
    }
  }

  /** matjson::Object, which the serialisers fill one `obj[key] = val` at a time.
      Every key a serialiser assigns is new to the object, so each assignment
      appends (see `AppendAssigns`, `AssignsReplay` and `ReplayDistinct`). */
  class JsonObject {
    var entries: Entries

    constructor ()
      ensures entries == []
    {
      entries := [];
    }

    /** `obj[key] = val` for a key the object does not hold yet. */
    method Set(key: string, val: Json)
      modifies this
      ensures entries == old(entries) + [(key, val)]
    {
      entries := entries + [(key, val)];
    }
  }

  /** matjson::Array, which the serialisers fill one `push_back` at a time. */
  class JsonArray {
    var elems: seq<Json>

    constructor ()
      ensures elems == []
    {
      elems := [];
    }

    method PushBack(val: Json)
      modifies this
      ensures elems == old(elems) + [val]
    {
      elems := elems + [val];
    }
  }
}
