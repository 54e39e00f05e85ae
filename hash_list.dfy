/**
 * Accumulation of map-data fragments by hash
 * (pymammotion/data/model/hash_list.py): each `NavGetCommDataAck` is routed
 * by its type into the area, obstacle or path dictionary, where the
 * fragments of one hash collect in a `FrameList`.
 *
 * The duplicate test of the program compares the incoming fragment with
 * the list of the stored fragments' HASH VALUES. A message never equals an
 * integer, so the test never fires: a new hash stores its first fragment
 * twice and every redelivery is appended again. `AddHashData` models the
 * code as written; `AddHashDataDedup` is the deduplicating accumulation the
 * code evidently intends.
 */
module HashFrames {

  /** One `NavGetCommDataAck` fragment; `kind` is its `type` field. */
  datatype Fragment = Fragment(kind: int, hash: int, totalFrame: int, currentFrame: int, payload: seq<int>)

  /** The fragments received for one hash, with the frame count the first one declared. */
  datatype FrameList = FrameList(totalFrame: int, data: seq<Fragment>)

  /** Python's `==` between a protobuf message and an `int`: never true. */
  predicate MessageEqualsInt(f: Fragment, x: int): (b: bool)
    ensures !b
  {
    false
  }

  /** `hash_data in hash_values`, for a list of integers. */
  predicate InIntList(f: Fragment, values: seq<int>): (b: bool)
    ensures !b
  {
    exists i | 0 <= i < |values| :: MessageEqualsInt(f, values[i])
  }

  /** `[item.hash for item in data]`. */
  function HashValues(data: seq<Fragment>): (r: seq<int>)
    ensures |r| == |data| && forall i | 0 <= i < |data| :: r[i] == data[i].hash
  {
    if data == [] then [] else [data[0].hash] + HashValues(data[1..])
  }

  /** Every fragment stored under a hash carries that hash. */
  ghost predicate HashConsistent(hashDict: map<int, FrameList>)
  {
    forall h, i | h in hashDict && 0 <= i < |hashDict[h].data| :: hashDict[h].data[i].hash == h
  }

  /**
   * `_add_hash_data` as written: a new hash gets a frame list holding the
   * fragment, and then the fragment is appended, because the duplicate
   * test never matches.
   */
  function AddHashData(hashDict: map<int, FrameList>, f: Fragment): (r: map<int, FrameList>)
    ensures r.Keys == hashDict.Keys + {f.hash}
    ensures forall h | h in hashDict && h != f.hash :: r[h] == hashDict[h]
    // a previously unseen hash ends with the fragment stored twice
    ensures f.hash !in hashDict ==> r[f.hash] == FrameList(f.totalFrame, [f, f])
    // a known hash keeps its frame count and grows by exactly the new fragment
    ensures f.hash in hashDict ==>
              r[f.hash].totalFrame == hashDict[f.hash].totalFrame &&
              r[f.hash].data == hashDict[f.hash].data + [f]
    ensures HashConsistent(hashDict) ==> HashConsistent(r)
  {
    var withList := if f.hash !in hashDict then hashDict[f.hash := FrameList(f.totalFrame, [f])] else hashDict;
    var frames := withList[f.hash];
    if !InIntList(f, HashValues(frames.data)) then withList[f.hash := frames.(data := frames.data + [f])]
    else withList
  }

  /** Stored fragments of one frame list are pairwise distinct. */
  predicate NoDuplicates(data: seq<Fragment>)
  {
    forall i, j | 0 <= i < j < |data| :: data[i] != data[j]
  }

  /**
   * The accumulation the program evidently intends: a new hash starts a
   * frame list with the fragment, a known hash appends the fragment unless
   * an equal one is already stored.
   */
  function AddHashDataDedup(hashDict: map<int, FrameList>, f: Fragment): (r: map<int, FrameList>)
    ensures r.Keys == hashDict.Keys + {f.hash}
    ensures forall h | h in hashDict && h != f.hash :: r[h] == hashDict[h]
    ensures f.hash !in hashDict ==> r[f.hash] == FrameList(f.totalFrame, [f])
    ensures f.hash in hashDict ==> r[f.hash].totalFrame == hashDict[f.hash].totalFrame
    ensures f.hash in hashDict && f in hashDict[f.hash].data ==> r == hashDict
    ensures f.hash in hashDict && f !in hashDict[f.hash].data ==> r[f.hash].data == hashDict[f.hash].data + [f]
    ensures HashConsistent(hashDict) ==> HashConsistent(r)
    ensures f.hash in hashDict && NoDuplicates(hashDict[f.hash].data) ==> NoDuplicates(r[f.hash].data)
  {
    if f.hash !in hashDict then hashDict[f.hash := FrameList(f.totalFrame, [f])]
    else if f in hashDict[f.hash].data then hashDict
    else hashDict[f.hash := hashDict[f.hash].(data := hashDict[f.hash].data + [f])]
  }

  /** Exact redelivery is absorbed by the intended accumulation. */
  lemma DedupIdempotent(hashDict: map<int, FrameList>, f: Fragment)
    ensures AddHashDataDedup(AddHashDataDedup(hashDict, f), f) == AddHashDataDedup(hashDict, f)
  {
    var once := AddHashDataDedup(hashDict, f);
    if f.hash in hashDict && f !in hashDict[f.hash].data {
      assert once[f.hash].data[|hashDict[f.hash].data|] == f;
    } else if f.hash !in hashDict {
      assert once[f.hash].data[0] == f;
    }
  }

  /** As written, exact redelivery grows the frame list by one every time. */
  lemma RedeliveryGrows(hashDict: map<int, FrameList>, f: Fragment)
    ensures var once := AddHashData(hashDict, f);
            |AddHashData(once, f)[f.hash].data| == |once[f.hash].data| + 1
  {
  }

  /** A sequence of fragments fed to one dictionary, in order. */
  function IngestAll(hashDict: map<int, FrameList>, fs: seq<Fragment>): map<int, FrameList>
  {
    if fs == [] then hashDict else AddHashData(IngestAll(hashDict, fs[..|fs| - 1]), fs[|fs| - 1])
  }

  /** The intended accumulation of a sequence of fragments. */
  function IngestAllDedup(hashDict: map<int, FrameList>, fs: seq<Fragment>): map<int, FrameList>
  {
    if fs == [] then hashDict else AddHashDataDedup(IngestAllDedup(hashDict, fs[..|fs| - 1]), fs[|fs| - 1])
  }

  /** How many fragments of `fs` carry hash `h`. */
  function CountHash(fs: seq<Fragment>, h: int): nat
  {
    if fs == [] then 0 else CountHash(fs[..|fs| - 1], h) + (if fs[|fs| - 1].hash == h then 1 else 0)
  }

  /** The index of the first fragment of `fs` with hash `h`, if any. */
  function FirstWithHash(fs: seq<Fragment>, h: int): (k: int)
    ensures -1 <= k < |fs|
    ensures k == -1 <==> CountHash(fs, h) == 0
    ensures k == -1 ==> forall j | 0 <= j < |fs| :: fs[j].hash != h
    ensures k >= 0 ==> fs[k].hash == h && forall j | 0 <= j < k :: fs[j].hash != h
  {
    if fs == [] then -1
    else
      var k := FirstWithHash(fs[..|fs| - 1], h);
      if k >= 0 then k else if fs[|fs| - 1].hash == h then |fs| - 1 else -1
  }

  /**
   * Starting from an empty dictionary, as written: a hash seen n > 0 times
   * holds n + 1 fragments, and its frame count is the first fragment's.
   */
  lemma {:induction false} IngestAllCounts(fs: seq<Fragment>, h: int)
    ensures h in IngestAll(map[], fs) <==> CountHash(fs, h) > 0
    ensures CountHash(fs, h) > 0 ==>
              |IngestAll(map[], fs)[h].data| == CountHash(fs, h) + 1 &&
              IngestAll(map[], fs)[h].totalFrame == fs[FirstWithHash(fs, h)].totalFrame
  {
    if fs != [] {
      var init := fs[..|fs| - 1];
      IngestAllCounts(init, h);
      if CountHash(init, h) > 0 {
        assert FirstWithHash(fs, h) == FirstWithHash(init, h);
        assert fs[FirstWithHash(fs, h)] == init[FirstWithHash(init, h)];
      }
    }
  }

  /** Starting from an empty dictionary, the intended accumulation never stores a fragment twice. */
  lemma {:induction false} IngestAllDedupNoDuplicates(fs: seq<Fragment>)
    ensures forall h | h in IngestAllDedup(map[], fs) :: NoDuplicates(IngestAllDedup(map[], fs)[h].data)
    ensures HashConsistent(IngestAllDedup(map[], fs))
  {
    if fs != [] {
      IngestAllDedupNoDuplicates(fs[..|fs| - 1]);
    }
  }

  /**
   * Fragments A, B, A for one hash and three frames: the intended
   * accumulation keeps [A, B]; as written, the list is [A, A, B, A].
   */
  lemma RedeliveryScenario(a: Fragment, b: Fragment)
    requires a.hash == b.hash && a.totalFrame == 3 && b.totalFrame == 3 && a != b
    ensures IngestAllDedup(map[], [a, b, a]) == map[a.hash := FrameList(3, [a, b])]
    ensures IngestAll(map[], [a, b, a]) == map[a.hash := FrameList(3, [a, a, b, a])]
  {
    assert [a, b, a][..2] == [a, b];
    assert [a, b][..1] == [a];
    assert [a][..0] == [];
    assert IngestAllDedup(map[], [a]) == map[a.hash := FrameList(3, [a])];
    assert [a] + [b] == [a, b] && [a, a] + [b] == [a, a, b] && [a, a, b] + [a] == [a, a, b, a];
    assert IngestAllDedup(map[], [a, b]) == AddHashDataDedup(map[a.hash := FrameList(3, [a])], b);
    assert IngestAllDedup(map[], [a, b]) == map[a.hash := FrameList(3, [a, b])];
    assert IngestAll(map[], [a]) == map[a.hash := FrameList(3, [a, a])];
    assert IngestAll(map[], [a, b]) == AddHashData(map[a.hash := FrameList(3, [a, a])], b);
    assert IngestAll(map[], [a, b]) == map[a.hash := FrameList(3, [a, a, b])];
  }

  /** The map data of one sync (`HashList`): one dictionary per fragment type. */
  class HashList {
    var area: map<int, FrameList>      // type 0
    var path: map<int, FrameList>      // type 2
    var obstacle: map<int, FrameList>  // type 1

    /** Every dictionary holds only fragments of its own type, under their own hash. */
    ghost predicate Valid()
      reads this
    {
      && HashConsistent(area) && HashConsistent(obstacle) && HashConsistent(path)
      && OfKind(area, 0) && OfKind(obstacle, 1) && OfKind(path, 2)
    }

    /** The dataclass's `__init__`: the three dictionaries are given; empty ones form a valid map. */
    constructor (area: map<int, FrameList>, path: map<int, FrameList>, obstacle: map<int, FrameList>)
      ensures this.area == area && this.path == path && this.obstacle == obstacle
      ensures area == map[] && path == map[] && obstacle == map[] ==> Valid()
    {
      this.area, this.path, this.obstacle := area, path, obstacle;
    }

    /** `update`, as written: routes the fragment by type; other types change nothing. */
    method Update(f: Fragment)
      modifies this
      ensures old(Valid()) ==> Valid()
      ensures area == if f.kind == 0 then AddHashData(old(area), f) else old(area)
      ensures obstacle == if f.kind == 1 then AddHashData(old(obstacle), f) else old(obstacle)
      ensures path == if f.kind == 2 then AddHashData(old(path), f) else old(path)
    {
      if f.kind == 0 {
        area := AddHashData(area, f);
      }
      if f.kind == 1 {
        obstacle := AddHashData(obstacle, f);
      }
      if f.kind == 2 {
        path := AddHashData(path, f);
      }
    }

    /** `update` with the intended duplicate test. */
    method UpdateDedup(f: Fragment)
      modifies this
      ensures old(Valid()) ==> Valid()
      ensures area == if f.kind == 0 then AddHashDataDedup(old(area), f) else old(area)
      ensures obstacle == if f.kind == 1 then AddHashDataDedup(old(obstacle), f) else old(obstacle)
      ensures path == if f.kind == 2 then AddHashDataDedup(old(path), f) else old(path)
    {
      if f.kind == 0 {
        area := AddHashDataDedup(area, f);
      }
      if f.kind == 1 {
        obstacle := AddHashDataDedup(obstacle, f);
      }
      if f.kind == 2 {
        path := AddHashDataDedup(path, f);
      }
    }
  }

  /** Every fragment in the dictionary has type `kind`. */
  ghost predicate OfKind(hashDict: map<int, FrameList>, kind: int)
  {
    forall h, i | h in hashDict && 0 <= i < |hashDict[h].data| :: hashDict[h].data[i].kind == kind
  }
}
