/**
  A lock-free lookup in the stream map, one load at a time, while the serialized writer
  puts other keys: the lookup answers what the map holds at the moment it returns.
 */
module StreamMapReader {
  import opened StreamMap

  // The writer stores the idx of an empty slot first, and the key, which publishes it, last.
  datatype Writer = Idle | Storing(key: nat, idx: nat, d: nat)

  datatype Shared = Shared(t: seq<Entry>, m: map<nat, int>, w: Writer)

  datatype Reader = Probing(p: nat) | Matched(i: nat) | Returned(result: int)

  datatype Step =
    | StoreIdx(key: nat, idx: nat, d: nat)
    | StoreKey
    | LoadKey
    | LoadIdx

  // The put the writer is in, or begins, is the one ds_stream_map_put makes: the first empty
  // slot of the path of a key that is not in the map.
  ghost predicate PutAt(s: Shared, key: nat, d: nat) {
    && key != NULL && key !in s.m && d < |s.t|
    && Passed(s.t, key, d) && s.t[Probe(key, |s.t|, d)].key == NULL
  }

  ghost predicate SharedOk(s: Shared) {
    TableOk(s.t, s.m) && (s.w.Storing? ==> PutAt(s, s.w.key, s.w.d) && s.t[Probe(s.w.key, |s.t|, s.w.d)].idx == s.w.idx)
  }

  ghost predicate WriterMay(s: Shared, step: Step) {
    match step
    case StoreIdx(key, idx, d) => s.w.Idle? && PutAt(s, key, d)
    case StoreKey => s.w.Storing?
    case _ => true
  }

  ghost predicate ReaderMay(s: Shared, r: Reader, step: Step) {
    match step
    case LoadKey => r.Probing? && r.p <= |s.t|
    case LoadIdx => r.Matched? && r.i < |s.t|
    case _ => true
  }

  ghost function ApplyShared(s: Shared, step: Step): Shared
    requires SharedOk(s) && WriterMay(s, step)
  {
    match step
    case StoreIdx(key, idx, d) =>
      s.(t := s.t[Probe(key, |s.t|, d) := Entry(NULL, idx)], w := Storing(key, idx, d))
    case StoreKey =>
      var i := Probe(s.w.key, |s.t|, s.w.d);
      Shared(s.t[i := s.t[i].(key := s.w.key)], s.m[s.w.key := s.w.idx], Idle)
    case _ => s
  }

  // One iteration of ds_stream_map_get, or its read of the value.
  ghost function ApplyReader(s: Shared, r: Reader, step: Step, key: nat): Reader
    requires SharedOk(s) && ReaderMay(s, r, step)
  {
    match step
    case LoadKey =>
      if r.p == |s.t| then Returned(-1)
      else
        var i := Probe(key, |s.t|, r.p);
        if s.t[i].key == key then Matched(i)
        else if s.t[i].key == NULL then Returned(-1)
        else Probing(r.p + 1)
    case LoadIdx => Returned(s.t[r.i].idx)
    case _ => r
  }

  // The answer of the finite map.
  ghost function Lookup(m: map<nat, int>, key: nat): int {
    if key in m then m[key] else -1
  }

  ghost predicate ReaderOk(s: Shared, r: Reader, key: nat) {
    match r
    case Probing(p) => Passed(s.t, key, p)
    case Matched(i) => i < |s.t| && s.t[i].key == key && i == Probe(key, |s.t|, Distance(key, |s.t|, i))
    case Returned(_) => true
  }

  ghost predicate Grows(m: map<nat, int>, m': map<nat, int>) {
    forall k :: k in m ==> k in m' && m'[k] == m[k]
  }

  lemma StoreIdxKept(s: Shared, r: Reader, key: nat, k: nat, idx: nat, d: nat)
    requires SharedOk(s) && ReaderOk(s, r, key) && s.w.Idle? && PutAt(s, k, d) && key != NULL
    ensures var s' := ApplyShared(s, StoreIdx(k, idx, d)); SharedOk(s') && ReaderOk(s', r, key)
  {
    var i := Probe(k, |s.t|, d);
    var t' := s.t[i := Entry(NULL, idx)];
    forall x | x in s.m ensures s.m[x] >= 0 && Found(t', x, s.m[x]) {
      var e :| Sits(s.t, x, e, s.m[x]);
      assert Sits(t', x, e, s.m[x]);
    }
  }

  lemma StoreKeyKept(s: Shared, r: Reader, key: nat)
    requires SharedOk(s) && ReaderOk(s, r, key) && s.w.Storing? && key != NULL
    ensures var s' := ApplyShared(s, StoreKey); SharedOk(s') && ReaderOk(s', r, key) && Grows(s.m, s'.m)
  {
    PutAdds(s.t, s.m, s.w.key, s.w.idx, s.w.d);
  }

  /**
    The lookup is linearizable: at the step at which it returns, its result is the map's
    answer for the key; and whatever the map held before it still holds.
   */
  lemma ReturnsWhatTheMapHolds(s: Shared, r: Reader, step: Step, key: nat)
    requires SharedOk(s) && ReaderOk(s, r, key) && WriterMay(s, step) && ReaderMay(s, r, step) && key != NULL
    ensures var s', r' := ApplyShared(s, step), ApplyReader(s, r, step, key);
            && SharedOk(s') && ReaderOk(s', r', key) && Grows(s.m, s'.m)
            && (r'.Returned? && !r.Returned? ==> r'.result == Lookup(s'.m, key))
  {
    match step
    case StoreIdx(k, idx, d) => StoreIdxKept(s, r, key, k, idx, d);
    case StoreKey => StoreKeyKept(s, r, key);
    case LoadKey =>
      if r.p == |s.t| || s.t[Probe(key, |s.t|, r.p)].key == NULL {
        MissMeansAbsent(s.t, s.m, key, r.p);
      }
    case LoadIdx => HitMeansPresent(s.t, s.m, key, Distance(key, |s.t|, r.i));
  }

  ghost predicate Run(s: Shared, r: Reader, steps: seq<Step>, key: nat, s': Shared, r': Reader)
    decreases |steps|
  {
    if steps == [] then s' == s && r' == r
    else SharedOk(s) && WriterMay(s, steps[0]) && ReaderMay(s, r, steps[0])
         && Run(ApplyShared(s, steps[0]), ApplyReader(s, r, steps[0], key), steps[1..], key, s', r')
  }

  /**
    Over a whole lookup, interleaved with any puts: a key put before the probe starts is
    always found with its idx; and -1, or any other answer, is the map's answer at a moment
    during the lookup.
   */
  lemma {:induction false} LookupIsLinearizable(s: Shared, r: Reader, steps: seq<Step>, key: nat, s': Shared,
      r': Reader)
    returns (k: nat, m: map<nat, int>)
    requires SharedOk(s) && ReaderOk(s, r, key) && !r.Returned? && key != NULL
    requires Run(s, r, steps, key, s', r') && r'.Returned?
    ensures k <= |steps| && MapAfter(s, steps, k, m) && r'.result == Lookup(m, key)
    ensures Grows(s.m, m)
    ensures key in s.m ==> r'.result == s.m[key]
    decreases |steps|
  {
    var s1, r1 := ApplyShared(s, steps[0]), ApplyReader(s, r, steps[0], key);
    ReturnsWhatTheMapHolds(s, r, steps[0], key);
    if r1.Returned? {
      ReturnedStays(s1, r1, steps[1..], key, s', r');
      return 1, s1.m;
    }
    k, m := LookupIsLinearizable(s1, r1, steps[1..], key, s', r');
    k := k + 1;
    assert steps[1..][..k - 1] == steps[..k][1..];
  }

  // m is the map after the first k steps.
  ghost predicate MapAfter(s: Shared, steps: seq<Step>, k: nat, m: map<nat, int>)
    decreases k
  {
    if k == 0 then m == s.m
    else
      && steps != [] && SharedOk(s) && WriterMay(s, steps[0])
      && MapAfter(ApplyShared(s, steps[0]), steps[1..], k - 1, m)
  }

  lemma {:induction false} ReturnedStays(s: Shared, r: Reader, steps: seq<Step>, key: nat, s': Shared, r': Reader)
    requires r.Returned? && Run(s, r, steps, key, s', r')
    ensures r' == r
    decreases |steps|
  {
    if steps != [] {
      ReturnedStays(ApplyShared(s, steps[0]), ApplyReader(s, r, steps[0], key), steps[1..], key, s', r');
    }
  }
}
