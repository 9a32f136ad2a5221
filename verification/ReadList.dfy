/**
 * The read list of an RPC-over-RDMA message (section 4.3.1 of RFC 8166): an array of
 * entries, each carrying one remote segment, ended by an entry whose discriminator is 0.
 */
module ReadList {
  import opened Base

  datatype Chunk = Chunk(discrim: u32, handle: u32, length: u32, offset: u64)

  /** The contents of remote memory, by handle (rkey) and address. */
  type Remote = (int, int) -> byte

  /** The number of entries in front of the first zero discriminator. */
  function Entries(list: seq<Chunk>): (n: nat)
    ensures n <= |list|
    ensures forall i | 0 <= i < n :: list[i].discrim != 0
    ensures n < |list| ==> list[n].discrim == 0
  {
    if list == [] || list[0].discrim == 0 then 0 else 1 + Entries(list[1..])
  }

  /** The list ends inside the array, and an `int` can count its entries. */
  ghost predicate Terminated(list: seq<Chunk>)
  {
    Entries(list) < |list| && Entries(list) <= INT_MAX
  }

  function Segments(list: seq<Chunk>): seq<Chunk>
  {
    list[..Entries(list)]
  }

  function Total(segs: seq<Chunk>): nat
  {
    if segs == [] then 0 else Total(segs[..|segs| - 1]) + segs[|segs| - 1].length
  }

  /** Where slice i begins inside the landing buffer. */
  function Start(segs: seq<Chunk>, i: nat): nat
    requires i <= |segs|
  {
    Total(segs[..i])
  }

  /** The bytes of one remote segment. */
  function Fetch(remote: Remote, handle: int, offset: int, length: nat): (bytes: seq<byte>)
  {
    seq(length, k => remote(handle, offset + k))
  }

  /** The remote segments laid end to end, in list order. */
  function Gathered(remote: Remote, segs: seq<Chunk>): seq<byte>
  {
    if segs == [] then []
    else
      var last := segs[|segs| - 1];
      Gathered(remote, segs[..|segs| - 1]) + Fetch(remote, last.handle, last.offset, last.length)
  }

  lemma StartNext(segs: seq<Chunk>, i: nat)
    requires i < |segs|
    ensures Start(segs, i + 1) == Start(segs, i) + segs[i].length
  {
    assert segs[..i + 1][..i] == segs[..i];
  }

  lemma {:induction false} StartMonotone(segs: seq<Chunk>, i: nat, j: nat)
    requires i <= j <= |segs|
    ensures Start(segs, i) <= Start(segs, j)
    decreases j
  {
    if i < j {
      StartNext(segs, j - 1);
      StartMonotone(segs, i, j - 1);
    }
  }

  ghost predicate InSlice(segs: seq<Chunk>, i: nat, p: nat)
  {
    i < |segs| && Start(segs, i) <= p < Start(segs, i) + segs[i].length
  }

  /** Slice i ends before slice j begins. */
  lemma SlicesApart(segs: seq<Chunk>, i: nat, j: nat)
    requires i < j < |segs|
    ensures Start(segs, i) + segs[i].length <= Start(segs, j)
  {
    StartNext(segs, i);
    StartMonotone(segs, i + 1, j);
  }

  /** Every slice lies inside the buffer. */
  lemma SliceInside(segs: seq<Chunk>, i: nat)
    requires i < |segs|
    ensures Start(segs, i) + segs[i].length <= Total(segs)
  {
    StartNext(segs, i);
    StartMonotone(segs, i + 1, |segs|);
    assert segs[..|segs|] == segs;
  }

  /** Some slice of the first m holds each offset below the start of slice m. */
  lemma {:induction false} FindSlice(segs: seq<Chunk>, m: nat, p: nat) returns (i: nat)
    requires m <= |segs| && p < Start(segs, m)
    ensures i < m && InSlice(segs, i, p)
    decreases m
  {
    StartNext(segs, m - 1);
    if Start(segs, m - 1) <= p {
      i := m - 1;
    } else {
      i := FindSlice(segs, m - 1, p);
    }
  }

  /** The slices tile the buffer: each offset below the total lies in exactly one slice, and none beyond. */
  lemma SlicesTile(segs: seq<Chunk>, p: nat)
    ensures p < Total(segs) <==> exists i: nat :: InSlice(segs, i, p)
    ensures forall i: nat, j: nat :: InSlice(segs, i, p) && InSlice(segs, j, p) ==> i == j
  {
    if p < Total(segs) {
      assert segs[..|segs|] == segs;
      var i := FindSlice(segs, |segs|, p);
    }
    forall i: nat | InSlice(segs, i, p) ensures p < Total(segs) {
      SliceInside(segs, i);
    }
    forall i: nat, j: nat | InSlice(segs, i, p) && InSlice(segs, j, p) ensures i == j {
      if i < j { SlicesApart(segs, i, j); } else if j < i { SlicesApart(segs, j, i); }
    }
  }

  lemma {:induction false} TotalBound(segs: seq<Chunk>)
    ensures Total(segs) <= |segs| * (TWO_32 - 1)
  {
    if segs != [] {
      TotalBound(segs[..|segs| - 1]);
    }
  }

  /** With 32-bit lengths and an `int` entry count no partial sum reaches 2^64. */
  lemma SizeNeverWraps(segs: seq<Chunk>, i: nat)
    requires i <= |segs| <= INT_MAX
    ensures Start(segs, i) < TWO_64
  {
    TotalBound(segs[..i]);
  }

  /** A buffer whose slices hold the segments holds their concatenation. */
  lemma {:induction false} SlicesMakeGathered(remote: Remote, segs: seq<Chunk>, m: nat, mem: seq<byte>)
    requires m <= |segs| && Start(segs, m) <= |mem|
    requires forall i: nat | i < m ::
               Start(segs, i) + segs[i].length <= |mem| &&
               mem[Start(segs, i)..Start(segs, i) + segs[i].length]
                 == Fetch(remote, segs[i].handle, segs[i].offset, segs[i].length)
    ensures mem[..Start(segs, m)] == Gathered(remote, segs[..m])
    decreases m
  {
    if m > 0 {
      StartNext(segs, m - 1);
      SlicesMakeGathered(remote, segs, m - 1, mem);
      assert segs[..m][..m - 1] == segs[..m - 1];
      assert mem[..Start(segs, m)] == mem[..Start(segs, m - 1)] + mem[Start(segs, m - 1)..Start(segs, m)];
    }
  }
}
