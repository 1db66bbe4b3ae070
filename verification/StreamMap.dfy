/**
  The open-addressing map from GPU streams to indices: its two probing loops against a
  finite map, with a table that only grows.
 */
module StreamMap {
  import opened Common
  import Words

  const NULL: nat := 0

  // struct ds_stream_map_entry
  datatype Entry = Entry(key: nat, idx: int)

  // (uint32_t)(v * 0x9E3779B97F4A7C15 >> 32) & mask, for a table of cap = mask + 1 slots
  function Hash(key: nat, cap: nat): (h: nat)
    requires cap > 0
    ensures h < cap
  {
    key * 0x9E37_79B9_7F4A_7C15 % 0x1_0000_0000_0000_0000 / 0x1_0000_0000 % cap
  }

  // (h + p) & mask
  function Probe(key: nat, cap: nat, p: nat): (i: nat)
    requires p < cap
    ensures i < cap
  {
    var h := Hash(key, cap);
    if h + p < cap then h + p else h + p - cap
  }

  lemma ProbeIsMasked(key: nat, cap: nat, p: nat)
    requires p < cap
    ensures Probe(key, cap, p) == (Hash(key, cap) + p) % cap
  {
    var h := Hash(key, cap);
    if h + p < cap {
      Words.QuotientUnique(h + p, cap, 0, h + p);
    } else {
      Words.QuotientUnique(h + p, cap, 1, h + p - cap);
    }
  }

  // Every slot is on the probe path of every key.
  function Distance(key: nat, cap: nat, i: nat): (p: nat)
    requires i < cap
    ensures p < cap && Probe(key, cap, p) == i
  {
    var h := Hash(key, cap);
    if i >= h then i - h else i + cap - h
  }

  // ---------- the table and the map it stands for ----------

  // The first d slots of the key's path hold other keys.
  ghost predicate Passed(t: seq<Entry>, key: nat, d: nat) {
    d <= |t| && forall q :: 0 <= q < d ==> t[Probe(key, |t|, q)].key != NULL && t[Probe(key, |t|, q)].key != key
  }

  ghost predicate Sits(t: seq<Entry>, key: nat, d: nat, idx: int) {
    d < |t| && Passed(t, key, d) && t[Probe(key, |t|, d)] == Entry(key, idx)
  }

  ghost predicate Found(t: seq<Entry>, key: nat, idx: int) {
    exists d :: Sits(t, key, d, idx)
  }

  ghost predicate TableOk(t: seq<Entry>, m: map<nat, int>) {
    && |t| > 0 && NULL !in m
    && (forall k :: k in m ==> m[k] >= 0 && Found(t, k, m[k]))
    && (forall i :: 0 <= i < |t| && t[i].key != NULL ==> t[i].key in m)
    && (forall i, j :: 0 <= i < j < |t| && t[i].key != NULL ==> t[i].key != t[j].key)
  }

  // A key whose path is passed up to an empty slot, or to the end, is not in the map.
  lemma MissMeansAbsent(t: seq<Entry>, m: map<nat, int>, key: nat, d: nat)
    requires TableOk(t, m) && Passed(t, key, d) && (d < |t| ==> t[Probe(key, |t|, d)].key == NULL)
    ensures key !in m
  {
    if key in m {
      SitsFurther(t, key, m[key], d);
    }
  }

  lemma SitsFurther(t: seq<Entry>, key: nat, idx: int, d: nat)
    requires key != NULL && Found(t, key, idx)
    requires Passed(t, key, d)
    ensures d < |t| && t[Probe(key, |t|, d)].key != NULL
  {
    var e :| Sits(t, key, e, idx);
    assert d <= e;
  }

  lemma HitMeansPresent(t: seq<Entry>, m: map<nat, int>, key: nat, d: nat)
    requires TableOk(t, m) && key != NULL && d < |t| && t[Probe(key, |t|, d)].key == key
    ensures key in m && t[Probe(key, |t|, d)].idx == m[key]
  {
    var i := Probe(key, |t|, d);
    assert key in m;
    var e :| Sits(t, key, e, m[key]);
    var j := Probe(key, |t|, e);
    assert t[i].key == t[j].key == key;
    assert i == j;
  }

  // Filling the first empty slot of the key's path adds exactly the key.
  lemma PutAdds(t: seq<Entry>, m: map<nat, int>, key: nat, idx: nat, d: nat)
    requires TableOk(t, m) && key != NULL && key !in m && d < |t|
    requires Passed(t, key, d) && t[Probe(key, |t|, d)].key == NULL
    ensures TableOk(t[Probe(key, |t|, d) := Entry(key, idx)], m[key := idx])
  {
    var i := Probe(key, |t|, d);
    var t', m' := t[i := Entry(key, idx)], m[key := idx];
    forall k | k in m' ensures m'[k] >= 0 && Found(t', k, m'[k]) {
      if k == key {
        assert Sits(t', key, d, idx);
      } else {
        var e :| Sits(t, k, e, m[k]);
        assert Sits(t', k, e, m[k]);
      }
    }
  }

  // ---------- room ----------

  // The keys in the first n slots.
  ghost function Keys(t: seq<Entry>, n: nat): set<nat>
    requires n <= |t|
  {
    set i: nat | i < n :: t[i].key
  }

  lemma KeysStep(t: seq<Entry>, n: nat)
    requires n < |t|
    ensures Keys(t, n + 1) == Keys(t, n) + {t[n].key}
  {
    forall k | k in Keys(t, n + 1) ensures k in Keys(t, n) + {t[n].key} {
      var i: nat :| i < n + 1 && t[i].key == k;
      assert i < n || i == n;
    }
    assert t[n].key in Keys(t, n + 1);
  }

  lemma {:induction false} KeysAtMost(t: seq<Entry>, n: nat)
    requires n <= |t|
    ensures |Keys(t, n)| <= n
  {
    if n > 0 {
      KeysAtMost(t, n - 1);
      KeysStep(t, n - 1);
    }
  }

  ghost predicate Distinct(t: seq<Entry>) {
    forall i, j :: 0 <= i < j < |t| && t[i].key != NULL ==> t[i].key != t[j].key
  }

  ghost predicate NoneEmpty(t: seq<Entry>, n: nat) {
    forall i :: 0 <= i < n && i < |t| ==> t[i].key != NULL
  }

  lemma KeyIsNew(t: seq<Entry>, n: nat)
    requires n < |t| && Distinct(t) && NoneEmpty(t, n)
    ensures t[n].key !in Keys(t, n)
  {
  }

  lemma {:induction false} KeysCount(t: seq<Entry>, n: nat)
    requires n <= |t| && Distinct(t) && NoneEmpty(t, n)
    ensures |Keys(t, n)| == n
  {
    if n > 0 {
      KeysCount(t, n - 1);
      KeyIsNew(t, n - 1);
      KeysStep(t, n - 1);
    }
  }

  // A table with more slots than keys has an empty one, on every key's path.
  lemma SomeSlotIsEmpty(t: seq<Entry>, m: map<nat, int>, key: nat) returns (p: nat)
    requires TableOk(t, m) && |m| < |t|
    ensures p < |t| && t[Probe(key, |t|, p)].key == NULL
  {
    if forall i :: 0 <= i < |t| ==> t[i].key != NULL {
      KeysCount(t, |t|);
      SubsetSize(Keys(t, |t|), m.Keys);
    }
    var i :| 0 <= i < |t| && t[i].key == NULL;
    p := Distance(key, |t|, i);
  }

  // And with an empty slot there are fewer keys than slots.
  lemma HasRoom(t: seq<Entry>, m: map<nat, int>, i: nat)
    requires TableOk(t, m) && i < |t| && t[i].key == NULL
    ensures |m| < |t|
  {
    forall k | k in m.Keys ensures k in Keys(t, |t|) {
      var d :| Sits(t, k, d, m[k]);
      assert t[Probe(k, |t|, d)].key == k;
    }
    assert t[i].key == NULL;
    KeysAtMost(t, |t|);
    SubsetSize(m.Keys + {NULL}, Keys(t, |t|));
    assert |m.Keys + {NULL}| == |m| + 1;
  }

  lemma FullTable(t: seq<Entry>, m: map<nat, int>, key: nat)
    requires TableOk(t, m) && Passed(t, key, |t|)
    ensures |m| >= |t|
  {
    if |m| < |t| {
      var p := SomeSlotIsEmpty(t, m, key);
    }
  }

  // ---------- the code ----------

  // ds_stream_map_get
  method Get(e: array<Entry>, key: nat, ghost m: map<nat, int>) returns (idx: int)
    requires TableOk(e[..], m) && key != NULL
    ensures idx == if key in m then m[key] else -1
  {
    var cap := e.Length;
    var p := 0;
    while p < cap
      invariant p <= cap && Passed(e[..], key, p)
    {
      var s := e[Probe(key, cap, p)];
      if s.key == key {
        HitMeansPresent(e[..], m, key, p);
        return s.idx;
      }
      if s.key == NULL {
        MissMeansAbsent(e[..], m, key, p);
        return -1;
      }
      p := p + 1;
    }
    MissMeansAbsent(e[..], m, key, cap);
    return -1;
  }

  // ds_stream_map_put, for a key that is not in the map
  method Put(e: array<Entry>, key: nat, idx: nat, ghost m: map<nat, int>) returns (rc: int)
    requires TableOk(e[..], m) && key != NULL && key !in m
    modifies e
    ensures rc == if |m| < e.Length then 0 else -1
    ensures rc == 0 ==> TableOk(e[..], m[key := idx])
    ensures rc == -1 ==> e[..] == old(e[..])
  {
    var cap := e.Length;
    var p := 0;
    while p < cap
      invariant p <= cap && Passed(e[..], key, p) && e[..] == old(e[..])
    {
      var i := Probe(key, cap, p);
      if e[i].key == NULL {
        PutAdds(e[..], m, key, idx, p);
        HasRoom(e[..], m, i);
        ghost var t := e[..][i := Entry(key, idx)];
        e[i] := Entry(key, idx);
        assert e[..] == t;
        return 0;
      }
      assert e[i].key in m;
      p := p + 1;
    }
    FullTable(e[..], m, key);
    return -1;
  }
}
