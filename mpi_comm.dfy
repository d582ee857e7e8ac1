/**
 * Communicator bookkeeping of the simulated MPI layer (sumi-mpi/mpi_comm/mpi_comm.cc):
 * construction, the size and task lookups, the attribute (keyval) table, and
 * the collective-tag generator that packs the communicator id above a
 * per-communicator counter.
 */
module MpiComm {
  import opened Common
  import opened Words

  /** `MPI_COMM_WORLD` and `MPI_COMM_NULL` come from a header outside this model; only their values matter here. */
  const MPI_COMM_WORLD: int := 0
  const MPI_COMM_NULL: int := -1

  /** First counter value of every communicator built with an id. */
  const FIRST_COLLECTIVE_TAG: int := MPI_COMM_WORLD + 100

  type TaskId = int

  // ---------------------------------------------------------------------
  // Collective tags
  // ---------------------------------------------------------------------

  /**
   * The 32-bit pattern `(id << 16) | next_collective_tag_` that
   * `next_collective_tag` builds for communicator `id` when its counter holds
   * `counter`: the id truncated to 16 bits, shifted into the upper half of a
   * 32-bit word, OR-ed with the counter's 32-bit pattern.
   */
  function TagBits(id: int, counter: int): (w: nat)
    ensures w < TWO32
  {
    Pow2Widths();
    BitOr((id % TWO16) * TWO16, Wrap32(counter), 32)
  }

  /** The tag `next_collective_tag` returns: the pattern read back as a signed `int`. */
  function CollectiveTag(id: int, counter: int): (tag: int)
    ensures -(TWO31 as int) <= tag < TWO31
    ensures Wrap32(tag) == TagBits(id, counter)
  {
    ToInt32(TagBits(id, counter))
  }

  /** While the counter fits in 16 bits, the tag's bit pattern is the id's 16 bits followed by the counter's. */
  lemma TagLayout(id: int, counter: int)
    requires 0 <= counter < TWO16
    ensures Wrap32(CollectiveTag(id, counter)) == (id % TWO16) * TWO16 + counter
  {
    Pow2Widths();
    var hi := id % TWO16;
    assert hi * TWO16 < TWO32;
    assert Wrap32(counter) == counter;
    BitOrDisjoint(hi, counter, 16, 32);
  }

  /** The upper 16 bits of a tag are the communicator id and the lower 16 bits the counter. */
  lemma TagFields(id: int, counter: int)
    requires 0 <= counter < TWO16
    ensures Wrap32(CollectiveTag(id, counter)) / TWO16 == id % TWO16
    ensures Wrap32(CollectiveTag(id, counter)) % TWO16 == counter
  {
    TagLayout(id, counter);
    SplitHalves(id % TWO16, counter);
  }

  /**
   * Tags drawn below the 16-bit counter limit never collide: two tags are
   * equal only for the same 16-bit communicator id and the same counter.
   */
  lemma TagsDistinct(id1: int, counter1: int, id2: int, counter2: int)
    requires 0 <= counter1 < TWO16 && 0 <= counter2 < TWO16
    requires id1 % TWO16 != id2 % TWO16 || counter1 != counter2
    ensures CollectiveTag(id1, counter1) != CollectiveTag(id2, counter2)
  {
    TagFields(id1, counter1);
    TagFields(id2, counter2);
  }

  /**
   * The pattern at counter 2^16 + c of an even 16-bit id: the counter's bit
   * 16 is OR-ed into the id's lowest bit, and its low half stays `c`.
   */
  lemma TagBitsOverflow(id: int, c: int)
    requires 0 <= id < TWO16 && id % 2 == 0 && 0 <= c < TWO16
    ensures TagBits(id, TWO16 + c) == (id + 1) * TWO16 + c
  {
    assert id % TWO16 == id && Wrap32(TWO16 + c) == TWO16 + c;
    var half := id / 2;
    assert id == 2 * half;
    Pow2Widths();
    assert Pow2(16) == 2 * Pow2(15);
    BitOrEvenHigh(half, c, 16, 32);
  }

  /**
   * Once a counter reaches 2^16 its bit 16 lands on the lowest id bit: from
   * then on, a communicator with an even 16-bit id reissues, counter for
   * counter, the tags of the communicator whose id is one higher.
   */
  lemma TagCollisionPastLimit(id: int, c: int)
    requires 0 <= id < TWO16 && id % 2 == 0 && 0 <= c < TWO16
    ensures CollectiveTag(id, TWO16 + c) == CollectiveTag(id + 1, c)
  {
    var next := id + 1;
    assert next < TWO16 by {
      assert id != TWO16 - 1;
    }
    assert next % TWO16 == next;
    TagBitsOverflow(id, c);
    TagLayout(next, c);
    assert TagBits(id, TWO16 + c) == TagBits(next, c);
  }

  /**
   * The pattern at counter 2^16 + c of an odd 16-bit id: the counter's bit 16
   * is already set in the shifted id, so the pattern is the one at counter c.
   */
  lemma TagBitsOddOverflow(id: int, c: int)
    requires 0 <= id < TWO16 && id % 2 == 1 && 0 <= c < TWO16
    ensures TagBits(id, TWO16 + c) == id * TWO16 + c
  {
    assert id % TWO16 == id && Wrap32(TWO16 + c) == TWO16 + c;
    var half := id / 2;
    assert id == 2 * half + 1;
    Pow2Widths();
    assert Pow2(16) == 2 * Pow2(15);
    BitOrOddHigh(half, c, 16, 32);
  }

  /**
   * Past the 16-bit counter limit, a communicator with an odd 16-bit id
   * reissues its own tags: the tag at counter 2^16 + c is the tag it already
   * drew at counter c.
   */
  lemma OddIdSelfReissue(id: int, c: int)
    requires 0 <= id < TWO16 && id % 2 == 1 && 0 <= c < TWO16
    ensures CollectiveTag(id, TWO16 + c) == CollectiveTag(id, c)
  {
    TagBitsOddOverflow(id, c);
    TagLayout(id, c);
    assert id % TWO16 == id;
    assert TagBits(id, TWO16 + c) == TagBits(id, c);
  }

  /** The tags returned by `n` successive `next_collective_tag` calls starting from counter `counter`. */
  function TagRun(id: int, counter: int, n: nat): (tags: seq<int>)
    decreases n
    ensures |tags| == n
    ensures forall i :: 0 <= i < n ==> tags[i] == CollectiveTag(id, counter + i)
  {
    if n == 0 then []
    else
      var rest := TagRun(id, counter + 1, n - 1);
      assert forall i :: 1 <= i < n ==> ([CollectiveTag(id, counter)] + rest)[i] == rest[i - 1];
      [CollectiveTag(id, counter)] + rest
  }

  /** Every tag of a run that stays below the 2^16 counter limit carries the communicator id in its upper 16 bits. */
  lemma TagRunCarriesId(id: int, counter: int, n: nat)
    requires 0 <= counter && counter + n <= TWO16
    ensures forall i :: 0 <= i < n ==> Wrap32(TagRun(id, counter, n)[i]) / TWO16 == id % TWO16
  {
    var tags := TagRun(id, counter, n);
    forall i | 0 <= i < n
      ensures Wrap32(tags[i]) / TWO16 == id % TWO16
    {
      var c := counter + i;
      assert tags[i] == CollectiveTag(id, c);
      TagFields(id, c);
    }
  }

  /** Successive tags are pairwise distinct as long as the counter stays below 2^16. */
  lemma TagRunDistinct(id: int, counter: int, n: nat)
    requires 0 <= counter && counter + n <= TWO16
    ensures forall i, j :: 0 <= i < j < n ==> TagRun(id, counter, n)[i] != TagRun(id, counter, n)[j]
  {
    var tags := TagRun(id, counter, n);
    forall i, j | 0 <= i < j < n
      ensures tags[i] != tags[j]
    {
      var ci, cj := counter + i, counter + j;
      assert tags[i] == CollectiveTag(id, ci) && tags[j] == CollectiveTag(id, cj);
      TagsDistinct(id, ci, id, cj);
    }
  }

  /**
   * A communicator with an even 16-bit id that has drawn 2^16 collective tags
   * since construction draws next the first tag of the communicator whose id
   * is one higher.
   */
  lemma FirstTagReissued(id: int)
    requires 0 <= id < TWO16 && id % 2 == 0
    ensures TagRun(id, FIRST_COLLECTIVE_TAG, TWO16 + 1)[TWO16] == TagRun(id + 1, FIRST_COLLECTIVE_TAG, 1)[0]
  {
    TagCollisionPastLimit(id, FIRST_COLLECTIVE_TAG);
  }

  // ---------------------------------------------------------------------
  // Attribute flags
  // ---------------------------------------------------------------------

  /** The flag `get_keyval` writes: 1 when the key is NOT in the table, 0 when it is. */
  function KeyvalFlag(keys: set<int>, key: int): (flag: int)
    ensures flag == 1 <==> key !in keys
    ensures flag == 0 <==> key in keys
  {
    if key !in keys then 1 else 0
  }

  /** The flag an attribute lookup reports under section 6.7.2 of MPI-3.1: 1 exactly when the attribute is set. */
  function AttrFoundFlag(keys: set<int>, key: int): (flag: int)
    ensures flag == 1 <==> key in keys
    ensures flag == 0 <==> key !in keys
  {
    if key in keys then 1 else 0
  }

  /** The flag `get_keyval` writes is the opposite of the flag MPI specifies, on every input. */
  lemma KeyvalFlagInverted(keys: set<int>, key: int)
    ensures KeyvalFlag(keys, key) == 1 - AttrFoundFlag(keys, key)
    ensures key in keys ==> KeyvalFlag(keys, key) == 0 && AttrFoundFlag(keys, key) == 1
  {
  }

  // ---------------------------------------------------------------------
  // The communicator
  // ---------------------------------------------------------------------

  /** A `keyval`: an attribute key with the value last stored through it. */
  class Keyval {
    const key: int
    var val: Ptr

    constructor (key: int, val: Ptr)
      ensures this.key == key && this.val == val
    {
      this.key := key;
      this.val := val;
    }
  }

  class MpiComm {
    const group: Option<seq<TaskId>>   // group_: None is nullptr, else the task of each rank
    var nextCollectiveTag: int         // next_collective_tag_
    const aid: Option<int>             // aid_: None when left default-constructed
    const id: int                      // id_
    const rank: int                    // rank_
    const delGrp: bool                 // del_grp_
    var keyvals: map<int, Keyval>      // keyvals_

    /** The default constructor: the null communicator. */
    constructor Null()
      ensures group == None && nextCollectiveTag == 0 && aid == None
      ensures id == MPI_COMM_NULL && rank == -1 && !delGrp && keyvals == map[]
      ensures Size() == Failure(ValueError)
    {
      group := None;
      nextCollectiveTag := 0;
      aid := None;
      id := MPI_COMM_NULL;
      rank := -1;
      delGrp := false;
      keyvals := map[];
    }

    /**
     * The field initialisation of the full constructor, before its size
     * check; only `New` calls it, and `New` refuses an empty group.
     */
    constructor Init(id: int, rank: int, peers: seq<TaskId>, aid: int, delGrp: bool)
      ensures group == Some(peers) && nextCollectiveTag == FIRST_COLLECTIVE_TAG && this.aid == Some(aid)
      ensures this.id == id && this.rank == rank && this.delGrp == delGrp && keyvals == map[]
    {
      group := Some(peers);
      nextCollectiveTag := FIRST_COLLECTIVE_TAG;
      this.aid := Some(aid);
      this.id := id;
      this.rank := rank;
      this.delGrp := delGrp;
      keyvals := map[];
    }

    /**
     * The full constructor: a communicator over the tasks `peers`, refused
     * with a value error when the group is empty.
     */
    static method New(id: int, rank: int, peers: seq<TaskId>, aid: int, delGrp: bool)
      returns (r: Result<MpiComm, Error>)
      ensures r.Failure? <==> |peers| == 0
      ensures r.Failure? ==> r.error == ValueError
      ensures r.Success? ==> fresh(r.value)
      ensures r.Success? ==> r.value.group == Some(peers) && r.value.aid == Some(aid)
      ensures r.Success? ==> r.value.id == id && r.value.rank == rank && r.value.delGrp == delGrp
      ensures r.Success? ==> r.value.nextCollectiveTag == FIRST_COLLECTIVE_TAG && r.value.keyvals == map[]
      ensures r.Success? && id != MPI_COMM_NULL ==> r.value.Size() == Success(|peers|) && |peers| > 0
    {
      var c := new MpiComm.Init(id, rank, peers, aid, delGrp);
      if |peers| == 0 {
        return Failure(ValueError);
      }
      return Success(c);
    }

    /** `size()`: the group size, or the error for a null communicator or a missing group. */
    function Size(): (r: Result<int, Error>)
      ensures id == MPI_COMM_NULL ==> r == Failure(ValueError)
      ensures id != MPI_COMM_NULL && group == None ==> r == Failure(NullError)
      ensures id != MPI_COMM_NULL && group != None ==> r == Success(|group.value|)
    {
      if id == MPI_COMM_NULL then Failure(ValueError)
      else if group.None? then Failure(NullError)
      else Success(|group.value|)
    }

    /** `peer_task(r)`: the task at rank `r` of the group. */
    function PeerTask(r: int): (t: TaskId)
      requires group.Some? && 0 <= r < |group.value|
      ensures t in group.value && t == group.value[r]
    {
      group.value[r]
    }

    /** `my_task()`: the caller's own task, the peer task at its own rank. */
    function MyTask(): (t: TaskId)
      requires group.Some? && 0 <= rank < |group.value|
      ensures t == PeerTask(rank) && t == group.value[rank]
    {
      group.value[rank]
    }

    /** `global_to_comm_rank` is not implemented and always throws. */
    function GlobalToCommRank(globalRank: int): (r: Result<int, Error>)
      ensures r == Failure(UnimplementedError)
    {
      Failure(UnimplementedError)
    }

    /** `next_collective_tag()`: return the packed tag and advance the counter by one. */
    method NextCollectiveTag() returns (tag: int)
      modifies this`nextCollectiveTag
      ensures tag == CollectiveTag(id, old(nextCollectiveTag))
      ensures nextCollectiveTag == old(nextCollectiveTag) + 1
    {
      tag := CollectiveTag(id, nextCollectiveTag);
      nextCollectiveTag := nextCollectiveTag + 1;
    }

    /** `set_keyval(k, v)`: file `k` under its key and store `v` in it. */
    method SetKeyval(k: Keyval, v: Ptr)
      modifies this`keyvals, k`val
      ensures keyvals == old(keyvals)[k.key := k]
      ensures k.key in keyvals && keyvals[k.key] == k && k.val == v
      ensures forall key :: key in old(keyvals) && key != k.key ==> key in keyvals && keyvals[key] == old(keyvals)[key]
    {
      keyvals := keyvals[k.key := k];
      k.val := v;
    }

    /**
     * `get_keyval(k, val, flag)`: the value is always the one stored in `k`,
     * whether or not `k` is in the table; the flag is 1 when its key is absent.
     */
    method GetKeyval(k: Keyval) returns (val: Ptr, flag: int)
      ensures val == k.val
      ensures flag == KeyvalFlag(keyvals.Keys, k.key)
      ensures flag == 1 <==> k.key !in keyvals
    {
      if k.key !in keyvals {
        flag := 1;
      } else {
        flag := 0;
      }
      val := k.val;
    }

    /**
     * `dup_keyvals(m)`: copying attributes is not implemented; the loop
     * throws on its first iteration, so it throws exactly when `m` has any.
     */
    method DupKeyvals(m: MpiComm) returns (r: Outcome<Error>)
      ensures r.Fail? <==> |m.keyvals| > 0
      ensures r.Fail? ==> r.error == UnimplementedError
    {
      if |m.keyvals| > 0 {
        return Fail(UnimplementedError);
      }
      return Pass;
    }

    /** Two collective tags drawn in a row on a communicator whose counter is below 2^16 - 1 differ and carry its id. */
    method TwoCollectiveTags() returns (first: int, second: int)
      requires 0 <= nextCollectiveTag < TWO16 - 1
      modifies this`nextCollectiveTag
      ensures first != second
      ensures Wrap32(first) / TWO16 == id % TWO16 && Wrap32(second) / TWO16 == id % TWO16
      ensures nextCollectiveTag == old(nextCollectiveTag) + 2
    {
      first := NextCollectiveTag();
      second := NextCollectiveTag();
      TagsDistinct(id, nextCollectiveTag - 2, id, nextCollectiveTag - 1);
      TagFields(id, nextCollectiveTag - 2);
      TagFields(id, nextCollectiveTag - 1);
    }
  }
}
