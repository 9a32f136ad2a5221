/**
 * The RDMA read poster: it sums the read list, takes one landing buffer, carves it into one
 * slice per segment, chains one work request per slice and posts the chain, with one
 * reference on the post per request. Foreign calls take their outcome from `Env`.
 */
module ReadPoster {
  import opened Base
  import opened ReadList

  datatype IoVec = IoVec(base: int, len: int)
  datatype Mr = Mr(lkey: u32, covers: IoVec)
  datatype Sge = Sge(addr: int, length: int, lkey: int)

  /** A C pointer into the array of work requests or of scatter entries. */
  datatype Link = Null | At(index: nat)
  datatype Opcode = NoOpcode | RdmaRead
  datatype SendWr = SendWr(wrId: int, sgList: Link, next: Link, numSge: nat, opcode: Opcode,
                           signaled: bool, remoteAddr: int, rkey: int)

  const ZERO_SGE := Sge(0, 0, 0)
  const ZERO_WR := SendWr(0, Null, Null, 0, NoOpcode, false, 0, 0)

  /** What the device takes from one work request. */
  datatype Request = Request(wrId: int, opcode: Opcode, signaled: bool, scatter: seq<Sge>, remoteAddr: int, rkey: int)

  /** The answer of `ibv_post_send`: `bad` is the first request refused; a null `bad` means none was accepted. */
  datatype PostReply = TookAll | Refused(code: int, bad: Option<nat>)

  /** The outcomes of the foreign calls of one `DoReads`. */
  datatype Env = Env(pool: Option<nat>,       // address of the buffer from iobuf_get2
                     iobrefNew: bool,         // iobref_new succeeds
                     sgeAlloc: bool,          // calloc of the scatter entries
                     wrAlloc: bool,           // calloc of the work requests
                     registerFailsAt: nat,    // first registration that fails; none if past the list
                     lkeys: seq<u32>,         // key given by each registration
                     reply: PostReply)

  ghost predicate Sensible(env: Env, segs: seq<Chunk>)
  {
    && |env.lkeys| >= |segs|
    && (env.pool.Some? ==> env.pool.value + Total(segs) <= TWO_64)
    && (env.reply.Refused? ==> env.reply.code != 0 && (env.reply.bad.Some? ==> env.reply.bad.value < |segs|))
  }

  class Iobuf {
    const addr: nat
    const size: nat
    var refs: nat

    constructor (addr: nat, size: nat)
      ensures this.addr == addr && this.size == size && refs == 1
    {
      this.addr, this.size, refs := addr, size, 1;
    }

    method Unref()
      requires refs > 0
      modifies this
      ensures refs == old(refs) - 1
    {
      refs := refs - 1;
    }
  }

  class IobRef {
    var bufs: seq<Iobuf>

    constructor ()
      ensures bufs == []
    {
      bufs := [];
    }

    /** The holder takes its own reference on the buffer. */
    method Add(buf: Iobuf)
      requires buf.refs > 0
      modifies this, buf
      ensures bufs == old(bufs) + [buf] && buf.refs == old(buf.refs) + 1
    {
      bufs := bufs + [buf];
      buf.refs := buf.refs + 1;
    }
  }

  class Post {
    const id: u64
    var refs: nat
    var readCount: int
    var count: nat
    var vector: array<IoVec>
    var mr: array<Mr>
    var mrCount: nat
    var iobref: IobRef?

    constructor (id: u64, vector: array<IoVec>, mr: array<Mr>)
      ensures this.id == id && this.vector == vector && this.mr == mr
      ensures refs == 1 && readCount == 0 && count == 0 && mrCount == 0 && iobref == null
    {
      this.id, this.vector, this.mr := id, vector, mr;
      refs, readCount, count, mrCount, iobref := 1, 0, 0, 0, null;
    }

    method Ref() returns (r: u64)
      modifies this`refs
      ensures refs == old(refs) + 1 && r == id
    {
      refs := refs + 1;
      r := id;
    }

    method Unref()
      requires refs > 0
      modifies this`refs
      ensures refs == old(refs) - 1
    {
      refs := refs - 1;
    }

    /** Registration appends one region on success and nothing on failure. */
    method RegisterLocalMr(iov: IoVec, fails: bool, lkey: u32) returns (ret: int)
      requires mrCount < mr.Length
      modifies this`mrCount, mr
      ensures fails ==> ret == -1 && mrCount == old(mrCount) && mr[..] == old(mr[..])
      ensures !fails ==> ret == 0 && mrCount == old(mrCount) + 1
                         && mr[..] == old(mr[..])[old(mrCount) := Mr(lkey, iov)]
    {
      if fails {
        return -1;
      }
      mr[mrCount] := Mr(lkey, iov);
      mrCount := mrCount + 1;
      ret := 0;
    }
  }

  /** The requests the device meets by following `next`; None if it leaves the array or never ends. */
  function Visit(wr: seq<SendWr>, at: Link, fuel: nat): Option<seq<nat>>
    decreases fuel
  {
    match at
    case Null => Some([])
    case At(i) =>
      if fuel == 0 || i >= |wr| then None
      else
        match Visit(wr, wr[i].next, fuel - 1)
        case None => None
        case Some(rest) => Some([i] + rest)
  }

  function Upto(i: nat, n: nat): seq<nat>
    requires i <= n
  {
    seq(n - i, k => i + k)
  }

  /** Links that each name the next request and end in null are followed once each, in order. */
  lemma {:induction false} ChainVisitsAll(wr: seq<SendWr>, i: nat)
    requires i < |wr|
    requires forall j: nat | i <= j < |wr| :: wr[j].next == if j + 1 < |wr| then At(j + 1) else Null
    ensures Visit(wr, At(i), |wr| - i) == Some(Upto(i, |wr|))
    decreases |wr| - i
  {
    assert wr[i].next == if i + 1 < |wr| then At(i + 1) else Null;
    if i + 1 < |wr| {
      ChainVisitsAll(wr, i + 1);
      assert Upto(i, |wr|) == [i] + Upto(i + 1, |wr|);
    } else {
      assert Visit(wr, wr[i].next, |wr| - i - 1) == Some([]);
      assert [i] + [] == Upto(i, |wr|);
    }
  }

  /** Left as the loop links it, the chain runs off the array. */
  lemma {:induction false} UnrepairedChainRunsOff(wr: seq<SendWr>, i: nat, fuel: nat)
    requires i < |wr|
    requires forall j: nat | i <= j < |wr| :: wr[j].next == At(j + 1)
    ensures Visit(wr, At(i), fuel) == None
    decreases |wr| - i
  {
    if fuel > 0 && i + 1 < |wr| {
      UnrepairedChainRunsOff(wr, i + 1, fuel - 1);
    }
  }

  ghost predicate Readable(w: SendWr, list: seq<Sge>)
  {
    w.sgList.At? && w.sgList.index + w.numSge <= |list|
  }

  ghost function Decode(w: SendWr, list: seq<Sge>): Request
    requires Readable(w, list)
  {
    Request(w.wrId, w.opcode, w.signaled, list[w.sgList.index..w.sgList.index + w.numSge], w.remoteAddr, w.rkey)
  }

  /** The requests at the given positions, in that order. */
  ghost function DecodeAll(wr: seq<SendWr>, list: seq<Sge>, order: seq<nat>): seq<Request>
    requires forall k: nat | k < |order| :: order[k] < |wr| && Readable(wr[order[k]], list)
  {
    seq(|order|, k requires 0 <= k < |order| => Decode(wr[order[k]], list))
  }

  function AcceptedBy(n: nat, reply: PostReply): nat
  {
    match reply
    case TookAll => n
    case Refused(_, Some(k)) => k
    case Refused(_, None) => 0
  }

  class QueuePair {
    ghost var accepted: seq<Request>

    constructor ()
      ensures accepted == []
    {
      accepted := [];
    }

    /** `ibv_post_send`: follows the chain from its first request and takes requests up to the first refused one. */
    method PostSend(wr: array<SendWr>, list: array<Sge>, reply: PostReply) returns (ret: int, bad: Link)
      requires Visit(wr[..], At(0), wr.Length).Some?
      requires var order := Visit(wr[..], At(0), wr.Length).value;
               forall k: nat | k < |order| :: order[k] < wr.Length && Readable(wr[order[k]], list[..])
      requires reply.Refused? ==> reply.code != 0
      requires reply.Refused? && reply.bad.Some? ==> reply.bad.value < |Visit(wr[..], At(0), wr.Length).value|
      modifies this
      ensures var order := Visit(wr[..], At(0), wr.Length).value;
              && accepted == old(accepted) + DecodeAll(wr[..], list[..], order)[..AcceptedBy(|order|, reply)]
              && (ret == 0 <==> reply.TookAll?)
              && bad == if reply.Refused? && reply.bad.Some? then At(order[reply.bad.value]) else Null
    {
      var order := Visit(wr[..], At(0), wr.Length).value;
      accepted := accepted + DecodeAll(wr[..], list[..], order)[..AcceptedBy(|order|, reply)];
      match reply
      case TookAll => return 0, Null;
      case Refused(code, None) => return code, Null;
      case Refused(code, Some(k)) => return code, At(order[k]);
    }
  }

  /** The request the poster owes segment i: its own slice, its own remote address and key. */
  ghost function ReadOf(segs: seq<Chunk>, addr: int, lkeys: seq<u32>, id: int, i: nat): Request
    requires i < |segs| <= |lkeys|
  {
    Request(id, RdmaRead, true, [Sge(addr + Start(segs, i), segs[i].length, lkeys[i])], segs[i].offset, segs[i].handle)
  }

  ghost function ReadsOf(segs: seq<Chunk>, addr: int, lkeys: seq<u32>, id: int): seq<Request>
    requires |segs| <= |lkeys|
  {
    seq(|segs|, i requires 0 <= i < |segs| => ReadOf(segs, addr, lkeys, id, i))
  }

  /** The read writes the byte at address p. */
  ghost predicate Covers(r: Request, p: int)
  {
    |r.scatter| == 1 && r.scatter[0].addr <= p < r.scatter[0].addr + r.scatter[0].length
  }

  /** The owed reads write each byte of the landing buffer once, and no byte outside it. */
  lemma ReadsTileBuffer(segs: seq<Chunk>, addr: int, lkeys: seq<u32>, id: int, p: int)
    requires |segs| <= |lkeys|
    ensures addr <= p < addr + Total(segs) <==>
              exists i: nat :: i < |segs| && Covers(ReadsOf(segs, addr, lkeys, id)[i], p)
    ensures forall i: nat, j: nat | i < |segs| && j < |segs| ::
              Covers(ReadsOf(segs, addr, lkeys, id)[i], p) && Covers(ReadsOf(segs, addr, lkeys, id)[j], p) ==> i == j
  {
    forall i: nat | i < |segs|
      ensures Covers(ReadsOf(segs, addr, lkeys, id)[i], p) <==> p >= addr && InSlice(segs, i, p - addr)
    {
    }
    if p >= addr {
      SlicesTile(segs, p - addr);
      if p < addr + Total(segs) {
        var i: nat :| InSlice(segs, i, p - addr);
        assert Covers(ReadsOf(segs, addr, lkeys, id)[i], p);
      }
    }
  }

  /** Entry i of the list is served by request i: its length, its remote address and key, its own slice and key. */
  lemma RequestServesEntry(list: seq<Chunk>, addr: int, lkeys: seq<u32>, id: int, i: nat)
    requires i < Entries(list) <= |lkeys|
    ensures var r := ReadsOf(Segments(list), addr, lkeys, id)[i];
            && |ReadsOf(Segments(list), addr, lkeys, id)| == Entries(list)
            && r.wrId == id && r.opcode == RdmaRead && r.signaled
            && r.remoteAddr == list[i].offset && r.rkey == list[i].handle
            && |r.scatter| == 1 && r.scatter[0].length == list[i].length && r.scatter[0].lkey == lkeys[i]
            && r.scatter[0].addr == addr + Total(list[..i])
  {
    assert Segments(list)[..i] == list[..i];
  }

  ghost function SliceVec(segs: seq<Chunk>, addr: int, i: nat): IoVec
    requires i < |segs|
  {
    IoVec(addr + Start(segs, i), segs[i].length)
  }

  /** How a call ends once it fills its requests. */
  datatype Exit = RegisterFailed(at: nat) | PostFailed(accepted: nat) | Posted

  function ChainExit(n: nat, env: Env): Exit
  {
    if env.registerFailsAt < n then RegisterFailed(env.registerFailsAt)
    else if env.reply.Refused? then PostFailed(AcceptedBy(n, env.reply))
    else Posted
  }

  /** Requests the device holds when the call returns. */
  function Accepted(n: nat, exit: Exit): nat
  {
    match exit
    case PostFailed(k) => k
    case Posted => n
    case RegisterFailed(_) => 0
  }

  /** Slices entered into the vector: a failed registration has already entered its slice. */
  function Entered(n: nat, exit: Exit): nat
  {
    match exit
    case RegisterFailed(j) => j + 1
    case PostFailed(_) => n
    case Posted => n
  }

  function Registered(n: nat, exit: Exit): nat
  {
    match exit
    case RegisterFailed(j) => j
    case PostFailed(_) => n
    case Posted => n
  }

  class Peer {
    const qp: QueuePair
    var connected: bool
    var scratch: nat  // calloc'd blocks not yet freed

    constructor (qp: QueuePair, connected: bool)
      ensures this.qp == qp && this.connected == connected && scratch == 0
    {
      this.qp, this.connected, scratch := qp, connected, 0;
    }
  }

  /** Request j as the loop leaves it, linked to the one after it whether or not there is one. */
  ghost function BuiltWr(segs: seq<Chunk>, id: int, j: nat): SendWr
    requires j < |segs|
  {
    SendWr(id, At(j), At(j + 1), 1, RdmaRead, true, segs[j].offset, segs[j].handle)
  }

  ghost function BuiltSge(segs: seq<Chunk>, addr: int, lkeys: seq<u32>, j: nat): Sge
    requires j < |segs| <= |lkeys|
  {
    Sge(addr + Start(segs, j), segs[j].length, lkeys[j])
  }

  /**
   * One turn of the second walk: enter the slice, register it, fill the scatter entry and the request, take a
   * reference.
   */
  method BuildOne(post: Post, chunk: Chunk, list: array<Sge>, wr: array<SendWr>, i: nat, ptr: int,
                  fails: bool, lkey: u32)
    returns (ret: int)
    requires i < list.Length == wr.Length
    requires post.count < post.vector.Length && post.mrCount < post.mr.Length
    modifies post`refs, post`count, post`mrCount, post.vector, post.mr, list, wr
    ensures post.count == old(post.count) + 1
    ensures post.vector[..] == old(post.vector[..])[old(post.count) := IoVec(ptr, chunk.length)]
    ensures fails ==> ret == -1 && post.refs == old(post.refs) && post.mrCount == old(post.mrCount)
                      && post.mr[..] == old(post.mr[..])
    ensures !fails ==> ret == 0 && post.refs == old(post.refs) + 1 && post.mrCount == old(post.mrCount) + 1
                       && post.mr[..] == old(post.mr[..])[old(post.mrCount) := Mr(lkey, IoVec(ptr, chunk.length))]
                       && list[..] == old(list[..])[i := Sge(ptr, chunk.length, lkey)]
                       && wr[..] == old(wr[..])[i := SendWr(post.id, At(i), At(i + 1), 1, RdmaRead, true,
                                                            chunk.offset, chunk.handle)]
  {
    var count := post.count;
    post.count := post.count + 1;
    post.vector[count] := IoVec(ptr, chunk.length);
    ret := post.RegisterLocalMr(post.vector[count], fails, lkey);
    if ret == -1 {
      return;
    }
    assert post.mr[post.mrCount - 1] == post.mr[..][post.mrCount - 1];
    list[i] := Sge(post.vector[count].base, post.vector[count].len, post.mr[post.mrCount - 1].lkey);
    var ref := post.Ref();
    wr[i] := SendWr(ref, At(i), At(i + 1), 1, RdmaRead, true, chunk.offset, chunk.handle);
  }

  /** The vector v after the first n slices were entered from position c on. */
  ghost function WithSlices(v: seq<IoVec>, c: nat, segs: seq<Chunk>, addr: int, n: nat): (r: seq<IoVec>)
    requires n <= |segs| && c + n <= |v|
    ensures |r| == |v|
  {
    if n == 0 then v else WithSlices(v, c, segs, addr, n - 1)[c + n - 1 := SliceVec(segs, addr, n - 1)]
  }

  /** The region table m after the first n slices were registered from position c on. */
  ghost function WithRegions(m: seq<Mr>, c: nat, segs: seq<Chunk>, addr: int, lkeys: seq<u32>, n: nat): (r: seq<Mr>)
    requires n <= |segs| <= |lkeys| && c + n <= |m|
    ensures |r| == |m|
  {
    if n == 0 then m
    else WithRegions(m, c, segs, addr, lkeys, n - 1)[c + n - 1 := Mr(lkeys[n - 1], SliceVec(segs, addr, n - 1))]
  }

  /** Old entries stay, entry c+j is slice j, and region c+j covers slice j under its own key. */
  lemma {:induction false} EntriesInOrder(v: seq<IoVec>, c: nat, m: seq<Mr>, d: nat,
                                          segs: seq<Chunk>, addr: int, lkeys: seq<u32>, n: nat, k: nat)
    requires n <= |segs| <= |lkeys| && c + n <= |v| && d + n <= |m|
    ensures k < |v| ==>
              WithSlices(v, c, segs, addr, n)[k] == if c <= k < c + n then SliceVec(segs, addr, k - c) else v[k]
    ensures k < |m| ==>
              WithRegions(m, d, segs, addr, lkeys, n)[k]
                == if d <= k < d + n then Mr(lkeys[k - d], SliceVec(segs, addr, k - d)) else m[k]
    decreases n
  {
    if n > 0 {
      EntriesInOrder(v, c, m, d, segs, addr, lkeys, n - 1, k);
    }
  }

  /** Scatter entries and requests built for the first n segments, each request linked to the one after it. */
  ghost predicate Built(segs: seq<Chunk>, addr: int, lkeys: seq<u32>, id: int, list: seq<Sge>, wr: seq<SendWr>, n: nat)
  {
    && n <= |segs| == |list| == |wr| && |segs| <= |lkeys|
    && (forall j: nat | j < n :: list[j] == BuiltSge(segs, addr, lkeys, j))
    && (forall j: nat | j < n :: wr[j] == BuiltWr(segs, id, j))
  }

  /** The second walk of the list; the last request it builds still links one past the array. */
  method BuildRequests(post: Post, readch: array<Chunk>, list: array<Sge>, wr: array<SendWr>, base: nat, env: Env,
                       ghost segs: seq<Chunk>)
    returns (ret: int, totalRef: int)
    requires Terminated(readch[..]) && segs == Segments(readch[..]) && |segs| > 0
    requires list.Length == wr.Length == |segs| <= |env.lkeys|
    requires post.count + |segs| <= post.vector.Length && post.mrCount + |segs| <= post.mr.Length
    modifies post`refs, post`count, post`mrCount, post.vector, post.mr, list, wr
    ensures totalRef == (if env.registerFailsAt < |segs| then env.registerFailsAt else |segs|)
    ensures ret == (if env.registerFailsAt < |segs| then -1 else 0)
    ensures post.refs == old(post.refs) + totalRef
    ensures post.count == old(post.count) + totalRef + (if ret == -1 then 1 else 0)
    ensures post.mrCount == old(post.mrCount) + totalRef
    ensures post.vector[..]
         == WithSlices(old(post.vector[..]), old(post.count), segs, base, post.count - old(post.count))
    ensures post.mr[..] == WithRegions(old(post.mr[..]), old(post.mrCount), segs, base, env.lkeys, totalRef)
    ensures ret == 0 ==> Built(segs, base, env.lkeys, post.id, list[..], wr[..], |segs|)
  {
    ret, totalRef := -1, 0;
    var ptr: int := base;
    var i := 0;
    ghost var vector0, mr0, chunks := post.vector[..], post.mr[..], readch[..];
    while readch[i].discrim != 0
      invariant 0 <= i <= |segs| && i <= env.registerFailsAt && (i > 0 ==> ret == 0)
      invariant totalRef == i && ptr == base + Start(segs, i)
      invariant post.refs == old(post.refs) + i
      invariant post.count == old(post.count) + i && post.mrCount == old(post.mrCount) + i
      invariant post.vector[..] == WithSlices(vector0, old(post.count), segs, base, i)
      invariant post.mr[..] == WithRegions(mr0, old(post.mrCount), segs, base, env.lkeys, i)
      invariant Built(segs, base, env.lkeys, post.id, list[..], wr[..], i)
      invariant readch[..] == chunks
      decreases |segs| - i
    {
      assert readch[..][i] == readch[i] == segs[i];
      ret := BuildOne(post, readch[i], list, wr, i, ptr, i == env.registerFailsAt, env.lkeys[i]);
      if ret == -1 {
        return;
      }
      StartNext(segs, i);
      ptr := ptr + readch[i].length;
      totalRef := totalRef + 1;
      i := i + 1;
    }
    assert readch[..][i] == readch[i];
  }

  /** The requests from the first refused one on are those whose references come back. */
  method CountRefused(total: int, bad: Link, totalRef: int) returns (left: int)
    requires bad.At? && bad.index < total && totalRef == total
    ensures left == total - bad.index
  {
    left := totalRef;
    var i := 0;
    while i < total
      invariant 0 <= i <= bad.index && left == totalRef - i
      decreases total - i
    {
      if At(i) != bad {
        left := left - 1;
      } else {
        break;
      }
      i := i + 1;
    }
  }

  method ReleaseRefs(post: Post, totalRef: int)
    requires 0 <= totalRef <= post.refs
    modifies post`refs
    ensures post.refs == old(post.refs) - totalRef
  {
    var left := totalRef;
    while left > 0
      invariant 0 <= left <= totalRef && post.refs == old(post.refs) - (totalRef - left)
    {
      left := left - 1;
      post.Unref();
    }
  }

  /** What the device decodes from the repaired chain is exactly one owed read per segment, in list order. */
  lemma {:induction false} RepairedChainReads(segs: seq<Chunk>, addr: int, lkeys: seq<u32>, id: int,
                                              list: seq<Sge>, built: seq<SendWr>)
    requires |built| > 0 && Built(segs, addr, lkeys, id, list, built, |built|)
    ensures var wr := built[|built| - 1 := built[|built| - 1].(next := Null)];
            && Visit(wr, At(0), |wr|) == Some(Upto(0, |wr|))
            && (forall k: nat | k < |wr| :: Upto(0, |wr|)[k] == k && Readable(wr[k], list))
            && DecodeAll(wr, list, Upto(0, |wr|)) == ReadsOf(segs, addr, lkeys, id)
  {
    var wr := built[|built| - 1 := built[|built| - 1].(next := Null)];
    ChainVisitsAll(wr, 0);
    forall j: nat | j < |segs|
      ensures Readable(wr[j], list) && Decode(wr[j], list) == ReadOf(segs, addr, lkeys, id, j)
    {
      assert built[j] == BuiltWr(segs, id, j);
      assert list[j..j + 1] == [list[j]];
    }
  }

  ghost function Owned(holder: IobRef?): seq<Iobuf>
    reads holder
  {
    if holder == null then [] else holder.bufs
  }

  /** The first walk: the number of entries and the size of the landing buffer, in `size_t` arithmetic. */
  method Measure(readch: array<Chunk>) returns (count: int, size: u64)
    requires Terminated(readch[..])
    ensures count == Entries(readch[..]) && size == Total(Segments(readch[..]))
  {
    ghost var segs := Segments(readch[..]);
    count, size := 0, 0;
    while readch[count].discrim != 0
      invariant 0 <= count <= |segs| && size == Start(segs, count)
      decreases |segs| - count
    {
      assert readch[..][count] == readch[count] == segs[count];
      StartNext(segs, count);
      SizeNeverWraps(segs, count + 1);
      size := (size + readch[count].length) % TWO_64;
      count := count + 1;
    }
    assert readch[..][count] == readch[count];
    assert segs[..|segs|] == segs;
  }

  /** Gets the landing buffer and hands it to the iobref; without an iobref to hold it, it is released again. */
  method TakeBuffer(post: Post, env: Env, size: u64) returns (buf: Iobuf?, held: bool)
    modifies post`iobref, post.iobref
    ensures buf == null <==> env.pool.None?
    ensures buf != null ==> fresh(buf) && buf.addr == env.pool.value && buf.size == size
    ensures held <==> buf != null && (old(post.iobref) != null || env.iobrefNew)
    ensures held ==> post.iobref != null && Owned(post.iobref) == old(Owned(post.iobref)) + [buf] && buf.refs == 1
    ensures !held ==> post.iobref == old(post.iobref) && Owned(post.iobref) == old(Owned(post.iobref))
                      && (buf != null ==> buf.refs == 0)
    ensures old(post.iobref) != null ==> post.iobref == old(post.iobref)
    ensures old(post.iobref) == null && held ==> fresh(post.iobref)
  {
    buf, held := null, false;
    if env.pool.None? {
      return;
    }
    var iobuf := new Iobuf(env.pool.value, size);
    buf := iobuf;
    if post.iobref == null {
      if !env.iobrefNew {
        iobuf.Unref();
        return;
      }
      post.iobref := new IobRef();
    }
    post.iobref.Add(iobuf);
    iobuf.Unref();
    held := true;
  }

  /** Ends the chain at its last request and posts it; on failure `left` counts the requests never accepted. */
  method Submit(peer: Peer, count: int, list: array<Sge>, wr: array<SendWr>, reply: PostReply, totalRef: int,
                ghost segs: seq<Chunk>, ghost addr: int, ghost lkeys: seq<u32>, ghost id: int)
    returns (ret: int, left: int)
    requires count == totalRef == wr.Length && count > 0
    requires Built(segs, addr, lkeys, id, list[..], wr[..], count)
    requires reply.Refused? ==> reply.code != 0 && (reply.bad.Some? ==> reply.bad.value < count)
    modifies peer.qp, wr
    ensures ret == (if reply.TookAll? then 0 else -1)
    ensures left == if reply.TookAll? then count else count - AcceptedBy(count, reply)
    ensures peer.qp.accepted == old(peer.qp.accepted) + ReadsOf(segs, addr, lkeys, id)[..AcceptedBy(count, reply)]
  {
    RepairedChainReads(segs, addr, lkeys, id, list[..], wr[..]);
    ghost var built := wr[..];
    wr[count - 1] := wr[count - 1].(next := Null);
    assert wr[..] == built[count - 1 := built[count - 1].(next := Null)];
    left := totalRef;
    var bad;
    ret, bad := peer.qp.PostSend(wr, list, reply);
    if ret != 0 {
      if bad != Null {
        left := CountRefused(count, bad, left);
      }
      ret := -1;
    }
  }

  /**
   * Builds the requests over the buffer at ptr and posts them; totalRef counts the references still to give
   * back on failure.
   */
  method BuildAndSubmit(peer: Peer, post: Post, readch: array<Chunk>, list: array<Sge>, wr: array<SendWr>, ptr: nat,
                        env: Env, ghost segs: seq<Chunk>)
    returns (ret: int, totalRef: int)
    requires Terminated(readch[..]) && segs == Segments(readch[..]) && Sensible(env, segs)
    requires list.Length == wr.Length == post.readCount == |segs| > 0
    requires post.count + |segs| <= post.vector.Length && post.mrCount + |segs| <= post.mr.Length
    modifies post`refs, post`count, post`mrCount, post.vector, post.mr, list, wr, peer.qp
    ensures var exit := ChainExit(|segs|, env);
            && ret == (if exit.Posted? then 0 else -1) && totalRef >= 0
            && post.refs == old(post.refs) + Accepted(|segs|, exit) + (if ret == -1 then totalRef else 0)
            && peer.qp.accepted == old(peer.qp.accepted)
                                   + ReadsOf(segs, ptr, env.lkeys, post.id)[..Accepted(|segs|, exit)]
            && post.count == old(post.count) + Entered(|segs|, exit)
            && post.mrCount == old(post.mrCount) + Registered(|segs|, exit)
            && post.vector[..] == WithSlices(old(post.vector[..]), old(post.count), segs, ptr, Entered(|segs|, exit))
            && post.mr[..]
               == WithRegions(old(post.mr[..]), old(post.mrCount), segs, ptr, env.lkeys, Registered(|segs|, exit))
  {
    ret, totalRef := BuildRequests(post, readch, list, wr, ptr, env, segs);
    if ret != -1 {
      ret, totalRef := Submit(peer, post.readCount, list, wr, env.reply, totalRef, segs, ptr, env.lkeys, post.id);
    }
  }

  /**
   * The part of the call that holds the landing buffer: on failure the references of requests never accepted
   * come back.
   */
  method PostReads(peer: Peer, post: Post, readch: array<Chunk>, ptr: nat, env: Env, ghost segs: seq<Chunk>)
    returns (ret: int)
    requires Terminated(readch[..]) && segs == Segments(readch[..]) && Sensible(env, segs)
    requires post.readCount == |segs| > 0
    requires post.count + post.readCount <= post.vector.Length && post.mrCount + post.readCount <= post.mr.Length
    modifies post`refs, post`count, post`mrCount, post.vector, post.mr, peer`scratch, peer.qp
    ensures ret == (if peer.connected && env.sgeAlloc && env.wrAlloc && |segs| <= env.registerFailsAt
                       && env.reply == TookAll then 0 else -1)
    ensures var posted := if !peer.connected || !env.sgeAlloc || !env.wrAlloc || env.registerFailsAt < |segs| then 0
                          else if env.reply == TookAll then |segs|
                          else if env.reply.bad.Some? then env.reply.bad.value else 0;
            && posted <= |segs| && post.refs == old(post.refs) + posted
            && peer.qp.accepted == old(peer.qp.accepted) + ReadsOf(segs, ptr, env.lkeys, post.id)[..posted]
    ensures var starts := peer.connected && env.sgeAlloc && env.wrAlloc;
            var entered := if starts then Min(|segs|, env.registerFailsAt + 1) else 0;
            var registered := if starts then Min(|segs|, env.registerFailsAt) else 0;
            && post.count == old(post.count) + entered && post.mrCount == old(post.mrCount) + registered
            && post.vector[..] == WithSlices(old(post.vector[..]), old(post.count), segs, ptr, entered)
            && post.mr[..] == WithRegions(old(post.mr[..]), old(post.mrCount), segs, ptr, env.lkeys, registered)
    ensures peer.scratch == old(peer.scratch)
  {
    ret := -1;
    var totalRef := 0;
    if peer.connected && env.sgeAlloc {
      var list := new Sge[post.readCount](_ => ZERO_SGE);
      peer.scratch := peer.scratch + 1;
      if env.wrAlloc {
        var wr := new SendWr[post.readCount](_ => ZERO_WR);
        peer.scratch := peer.scratch + 1;
        ret, totalRef := BuildAndSubmit(peer, post, readch, list, wr, ptr, env, segs);
        peer.scratch := peer.scratch - 1;
      }
      peer.scratch := peer.scratch - 1;
    }
    if ret == -1 {
      ReleaseRefs(post, totalRef);
    }
  }

  ghost function BaseOf(env: Env): nat
  {
    if env.pool.Some? then env.pool.value else 0
  }

  /** `fs_rdma_do_reads`. The ghost result is the landing buffer, null when none was obtained. */
  method DoReads(peer: Peer, post: Post, readch: array<Chunk>, env: Env) returns (ret: int, ghost buf: Iobuf?)
    requires Terminated(readch[..]) && Sensible(env, Segments(readch[..]))
    requires post.count + Entries(readch[..]) <= post.vector.Length
    requires post.mrCount + Entries(readch[..]) <= post.mr.Length
    modifies post, post.vector, post.mr, peer`scratch, peer.qp, post.iobref
    // it succeeds exactly when there is a list and every test and every foreign call is passed
    ensures ret == (if Entries(readch[..]) > 0 && env.pool.Some? && (old(post.iobref) != null || env.iobrefNew)
                       && peer.connected && env.sgeAlloc && env.wrAlloc
                       && Entries(readch[..]) <= env.registerFailsAt && env.reply == TookAll then 0 else -1)
    // past every test and registration the device holds the reads up to the refused one
    ensures var segs := Segments(readch[..]);
            var posted := if |segs| == 0 || env.pool.None? || (old(post.iobref) == null && !env.iobrefNew)
                             || !peer.connected || !env.sgeAlloc || !env.wrAlloc || env.registerFailsAt < |segs| then 0
                          else if env.reply == TookAll then |segs|
                          else if env.reply.bad.Some? then env.reply.bad.value else 0;
            && posted <= |segs| && post.refs == old(post.refs) + posted
            && peer.qp.accepted == old(peer.qp.accepted) + ReadsOf(segs, BaseOf(env), env.lkeys, post.id)[..posted]
            && post.readCount == (if |segs| == 0 then old(post.readCount) else |segs|)
    // past the tests the vector names the slices in order, the one that failed to register included, after what it
    // already held; each registered slice has its region
    ensures var segs := Segments(readch[..]);
            var starts := |segs| > 0 && env.pool.Some? && (old(post.iobref) != null || env.iobrefNew)
                          && peer.connected && env.sgeAlloc && env.wrAlloc;
            var entered := if starts then Min(|segs|, env.registerFailsAt + 1) else 0;
            var registered := if starts then Min(|segs|, env.registerFailsAt) else 0;
            && post.count == old(post.count) + entered && post.mrCount == old(post.mrCount) + registered
            && post.vector == old(post.vector) && post.mr == old(post.mr)
            && post.vector[..] == WithSlices(old(post.vector[..]), old(post.count), segs, BaseOf(env), entered)
            && post.mr[..] == WithRegions(old(post.mr[..]), old(post.mrCount), segs, BaseOf(env), env.lkeys, registered)
            && peer.scratch == old(peer.scratch)
    // the landing buffer has the size of the whole list and is either fully released or held once, by the iobref
    ensures buf == null <==> Entries(readch[..]) == 0 || env.pool.None?
    ensures buf != null ==> fresh(buf) && env.pool == Some(buf.addr) && buf.size == Total(Segments(readch[..]))
    ensures if buf == null || (old(post.iobref) == null && !env.iobrefNew)
               then post.iobref == old(post.iobref) && Owned(post.iobref) == old(Owned(post.iobref))
                    && (buf != null ==> buf.refs == 0)
               else post.iobref != null && Owned(post.iobref) == old(Owned(post.iobref)) + [buf] && buf.refs == 1
    ensures old(post.iobref) != null ==> post.iobref == old(post.iobref)
  {
    ret, buf := -1, null;
    var count, size := Measure(readch);
    if count == 0 {
      return;
    }
    post.readCount := count;
    var iobuf, held := TakeBuffer(post, env, size);
    buf := iobuf;
    if !held {
      return;
    }
    ret := PostReads(peer, post, readch, iobuf.addr, env, Segments(readch[..]));
  }
}
