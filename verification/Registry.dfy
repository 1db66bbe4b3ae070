/**
  Registration of streams: the map and the streams array stay in step over every run.
 */
module Registry {
  import opened StreamMap

  const MAX_STREAMS: nat := 8192
  const STREAM_MAP_SIZE: nat := 16384  // 2 * MAX_STREAMS

  const SUCCESS: nat := 0
  const DEVICE_DRIVER_ERROR: nat := 5011
  const INVALID_VALUE: nat := 5022
  const INTERNAL_ERROR: nat := 5030

  // struct opends_stream: its gate is one of the driver's words, given by its position.
  datatype StreamState = StreamState(gate: nat, nextSeq: nat, hasBounce: bool)

  // The map's indices are the positions of the registered streams, and each has its gate.
  ghost predicate InStep(m: map<nat, int>, order: seq<nat>, n: nat, streams: seq<StreamState>) {
    && n == |order| == |m| <= |streams|
    && (forall i :: 0 <= i < n ==> order[i] in m && m[order[i]] == i)
    && (forall k :: k in m ==> 0 <= m[k] < n && order[m[k]] == k)
    && (forall i :: 0 <= i < n ==> streams[i].gate == i && streams[i].hasBounce)
  }

  lemma InStepGrows(m: map<nat, int>, order: seq<nat>, n: nat, streams: seq<StreamState>, stream: nat)
    requires InStep(m, order, n, streams) && stream !in m && n < |streams|
    ensures InStep(m[stream := n], order + [stream], n + 1, streams[n := StreamState(n, 0, true)])
  {
    var m' := m[stream := n];
    assert m'.Keys == m.Keys + {stream};
    assert |m'| == |m'.Keys| && |m| == |m.Keys|;
  }

  // The entry behind the registered ones is free to be filled in.
  lemma InStepSpare(m: map<nat, int>, order: seq<nat>, n: nat, streams: seq<StreamState>, s: StreamState)
    requires InStep(m, order, n, streams) && n < |streams|
    ensures InStep(m, order, n, streams[n := s])
  {
  }

  class Driver {
    const streamMap: array<Entry>
    var streams: seq<StreamState>
    var words: seq<nat>
    var nStreams: nat
    ghost var m: map<nat, int>          // what the map holds
    ghost var order: seq<nat>           // the registered streams in order

    ghost predicate Valid()
      reads this, streamMap
    {
      && streamMap.Length == STREAM_MAP_SIZE && |streams| == |words| == MAX_STREAMS
      && TableOk(streamMap[..], m)
      && InStep(m, order, nStreams, streams)
    }

    constructor ()
      ensures Valid() && m == map[] && fresh(streamMap)
    {
      streamMap := new Entry[STREAM_MAP_SIZE](i => Entry(NULL, 0));
      streams := seq(MAX_STREAMS, i => StreamState(0, 0, false));
      words := seq(MAX_STREAMS, i => 0);
      nStreams := 0;
      m := map[];
      order := [];
    }

    // opends_stream_get: the index of a registered stream
    method Get(stream: nat) returns (idx: int)
      requires Valid() && stream != NULL
      ensures if stream in m then idx == m[stream] && 0 <= idx < nStreams && order[idx] == stream else idx == -1
    {
      idx := StreamMap.Get(streamMap, stream, m);
    }

    // Registering touches nothing that belongs to the streams registered before.
    twostate predicate EarlierKept()
      reads this
    {
      && |streams| == old(|streams|) && |words| == old(|words|) && old(nStreams) <= |streams|
          && old(nStreams) <= |words|
      && forall i :: 0 <= i < old(nStreams) ==> streams[i] == old(streams)[i] && words[i] == old(words)[i]
    }

    // The fields of the next stream, its bounce block and its place in the map.
    method Append(stream: nat, allocFails: bool) returns (err: nat)
      requires Valid() && stream != NULL && stream !in m && nStreams < MAX_STREAMS
      modifies this, streamMap
      ensures Valid() && err == if allocFails then INTERNAL_ERROR else SUCCESS
      ensures words == old(words)[old(nStreams) := 0]
      ensures streams == old(streams)[old(nStreams) := StreamState(old(nStreams), 0, !allocFails)]
      ensures nStreams == old(nStreams) + if allocFails then 0 else 1
      ensures m == if allocFails then old(m) else old(m)[stream := old(nStreams)]
    {
      var n := nStreams;
      ghost var streams0, m0, order0 := streams, m, order;
      InStepSpare(m0, order0, n, streams0, StreamState(n, 0, false));
      InStepGrows(m0, order0, n, streams0, stream);
      words := words[n := 0];
      streams := streams[n := StreamState(n, 0, false)];
      if allocFails {
        return INTERNAL_ERROR;
      }
      streams := streams[n := streams[n].(hasBounce := true)];
      assert streams == streams0[n := StreamState(n, 0, true)];
      var rc := StreamMap.Put(streamMap, stream, n, m);
      assert rc == 0;  // the map has room, so the branch that gives the block back is never taken
      m := m[stream := n];
      order := order + [stream];
      nStreams := n + 1;
      return SUCCESS;
    }

    /**
      opends_stream_register. A stream that is registered already is left as it is; a new
      one gets the next index, and with it a gate word and a bounce block of its own. It
      fails only when the table of streams is full or the allocation fails, never because
      the map is full.
     */
    method Register(stream: nat, ready: bool, allocFails: bool) returns (err: nat)
      requires Valid()
      modifies this, streamMap
      ensures Valid() && EarlierKept()
      ensures err == (if stream == NULL then INVALID_VALUE
                      else if !ready then DEVICE_DRIVER_ERROR
                      else if stream in old(m) then SUCCESS
                      else if old(nStreams) == MAX_STREAMS || allocFails then INTERNAL_ERROR
                      else SUCCESS)
      ensures err == SUCCESS && stream !in old(m) ==>
                && m == old(m)[stream := old(nStreams)] && nStreams == old(nStreams) + 1
                && words[old(nStreams)] == 0 && streams[old(nStreams)] == StreamState(old(nStreams), 0, true)
      ensures err != SUCCESS || stream in old(m) ==> m == old(m) && nStreams == old(nStreams)
      ensures stream in old(m) ==> streams == old(streams) && words == old(words) && streamMap[..] == old(streamMap[..])
    {
      if stream == NULL {
        return INVALID_VALUE;
      }
      if !ready {
        return DEVICE_DRIVER_ERROR;
      }
      var known := StreamMap.Get(streamMap, stream, m);
      if known >= 0 {
        return SUCCESS;
      }
      if nStreams >= MAX_STREAMS {
        return INTERNAL_ERROR;
      }
      err := Append(stream, allocFails);
    }

    // Two registered streams have two indices, hence two gate words.
    lemma GatesDistinct(a: nat, b: nat)
      requires Valid() && a in m && b in m && a != b
      ensures 0 <= m[a] < nStreams && 0 <= m[b] < nStreams
      ensures streams[m[a]].gate != streams[m[b]].gate
    {
    }

    // A probe for any key, registered or not, meets an empty slot.
    lemma ProbeEnds(key: nat) returns (p: nat)
      requires Valid()
      ensures p < STREAM_MAP_SIZE && streamMap[Probe(key, STREAM_MAP_SIZE, p)].key == NULL
    {
      p := SomeSlotIsEmpty(streamMap[..], m, key);
    }
  }
}
