/**
 * The connection context and its event loop in the form the program has: fields assigned in
 * place, release loops over the pointer arrays. Each method is tied to the state machine of
 * ClientMachine; the ghost fields keep the ledger.
 */
module ClientContext {
  import opened Base
  import opened Ledger
  import opened ClientMachine
  import opened ClientSafety
  import CompletionQueues

  datatype Pointer = Null | To(h: Handle)

  // ---- one handle at a time ----

  function Drop(s: State, h: Handle): State
  {
    s.(held := s.held - {h}, trace := s.trace + if h in s.held then [Destroy(h)] else [])
  }

  function Add(s: State, h: Handle): State
  {
    s.(held := s.held + {h}, trace := s.trace + [Create(h)])
  }

  function DropSlot(s: State, i: nat): State
  {
    Drop(Drop(Drop(s, Qp(i)), Mr(i)), Buf(i))
  }

  function DropSlots(s: State, k: nat): State
  {
    if k == 0 then s else DropSlot(DropSlots(s, k - 1), k - 1)
  }

  function DropQueuesAndPd(s: State): State
  {
    Drop(Drop(Drop(s, SendCq), RecvCq), Pd)
  }

  function AddQps(s: State, k: nat): State
  {
    if k == 0 then s else Add(AddQps(s, k - 1), Qp(k - 1))
  }

  function AddMemory(s: State, k: nat): State
  {
    if k == 0 then s else Add(Add(AddMemory(s, k - 1), Buf(k - 1)), Mr(k - 1))
  }

  function AddQueues(s: State, o: CreateEnv): State
  {
    var t := Add(Add(Add(s, Context), Pd), SendCq);
    if o.recvCq then Add(t, RecvCq) else t
  }

  lemma DropAbsent(s: State, h: Handle)
    requires h !in s.held
    ensures Drop(s, h) == s
  {
    assert s.held - {h} == s.held && s.trace + [] == s.trace;
  }

  lemma ReleaseSnoc(s: State, order: seq<Handle>, h: Handle)
    ensures Release(s, order + [h]) == Drop(Release(s, order), h)
  {
    ReleasesConcat(order, [h], s.held);
    ReleasesOne(h, s.held - Elements(order));
    assert s.held - Elements(order + [h]) == s.held - Elements(order) - {h};
    var one := if h in s.held - Elements(order) then [Destroy(h)] else [];
    assert s.trace + (Releases(order, s.held) + one) == s.trace + Releases(order, s.held) + one;
  }

  lemma ReleaseNone(s: State)
    ensures Release(s, []) == s
  {
    assert s.held - Elements([]) == s.held && s.trace + [] == s.trace;
  }

  lemma {:induction false} ReleaseSlotsSteps(s: State, k: nat)
    ensures Release(s, Slots(k)) == DropSlots(s, k)
    decreases k
  {
    if k == 0 {
      ReleaseNone(s);
    } else {
      var before := Slots(k - 1);
      ReleaseSlotsSteps(s, k - 1);
      assert Slots(k) == before + [Qp(k - 1)] + [Mr(k - 1)] + [Buf(k - 1)];
      ReleaseSnoc(s, before, Qp(k - 1));
      ReleaseSnoc(s, before + [Qp(k - 1)], Mr(k - 1));
      ReleaseSnoc(s, before + [Qp(k - 1)] + [Mr(k - 1)], Buf(k - 1));
    }
  }

  lemma ReleaseFour(s: State, hs: seq<Handle>, a: Handle, b: Handle, c: Handle, d: Handle)
    ensures Release(s, hs + [a, b, c, d]) == Drop(Drop(Drop(Drop(Release(s, hs), a), b), c), d)
  {
    assert hs + [a, b, c, d] == hs + [a] + [b] + [c] + [d];
    ReleaseSnoc(s, hs, a);
    ReleaseSnoc(s, hs + [a], b);
    ReleaseSnoc(s, hs + [a] + [b], c);
    ReleaseSnoc(s, hs + [a] + [b] + [c], d);
  }

  lemma ReleaseTailSteps(s: State, last: Handle)
    ensures Release(s, Slots(s.n) + [SendCq, RecvCq, Pd, last]) == Drop(DropQueuesAndPd(DropSlots(s, s.n)), last)
  {
    ReleaseSlotsSteps(s, s.n);
    ReleaseFour(s, Slots(s.n), SendCq, RecvCq, Pd, last);
  }

  lemma ObtainSnoc(s: State, hs: seq<Handle>, h: Handle)
    ensures Obtain(s, hs + [h]) == Add(Obtain(s, hs), h)
  {
    assert s.held + Elements(hs + [h]) == s.held + Elements(hs) + {h};
    assert s.trace + Creates(hs + [h]) == s.trace + Creates(hs) + [Create(h)];
  }

  lemma ObtainNone(s: State)
    ensures Obtain(s, []) == s
  {
    assert s.held + Elements([]) == s.held && s.trace + Creates([]) == s.trace;
  }

  lemma ObtainQueuesSteps(s: State, o: CreateEnv)
    ensures Obtain(s, []) == s && Obtain(s, [Context]) == Add(s, Context)
    ensures Obtain(s, [Context, Pd]) == Add(Add(s, Context), Pd)
    ensures Obtain(s, Queues(o)) == AddQueues(s, o)
  {
    ObtainNone(s);
    assert [] + [Context] == [Context] && [Context] + [Pd] == [Context, Pd];
    assert Queues(o) == if o.recvCq then [Context, Pd] + [SendCq] + [RecvCq] else [Context, Pd] + [SendCq];
    ObtainSnoc(s, [], Context);
    ObtainSnoc(s, [Context], Pd);
    ObtainSnoc(s, [Context, Pd], SendCq);
    ObtainSnoc(s, [Context, Pd] + [SendCq], RecvCq);
  }

  lemma {:induction false} ObtainQpsSteps(s: State, hs: seq<Handle>, k: nat)
    ensures Obtain(s, hs + Qps(k)) == AddQps(Obtain(s, hs), k)
    decreases k
  {
    if k == 0 {
      assert hs + Qps(0) == hs;
    } else {
      ObtainQpsSteps(s, hs, k - 1);
      assert hs + Qps(k) == hs + Qps(k - 1) + [Qp(k - 1)];
      ObtainSnoc(s, hs + Qps(k - 1), Qp(k - 1));
    }
  }

  lemma ObtainPair(s: State, hs: seq<Handle>, i: nat)
    ensures Obtain(s, hs + [Buf(i), Mr(i)]) == Add(Add(Obtain(s, hs), Buf(i)), Mr(i))
  {
    assert hs + [Buf(i), Mr(i)] == hs + [Buf(i)] + [Mr(i)];
    ObtainSnoc(s, hs, Buf(i));
    ObtainSnoc(s, hs + [Buf(i)], Mr(i));
  }

  lemma {:induction false} ObtainMemorySteps(s: State, hs: seq<Handle>, k: nat)
    ensures Obtain(s, hs + Memory(k)) == AddMemory(Obtain(s, hs), k)
    decreases k
  {
    if k == 0 {
      assert hs + Memory(0) == hs;
    } else {
      ObtainMemorySteps(s, hs, k - 1);
      ObtainPair(s, hs + Memory(k - 1), k - 1);
      assert hs + Memory(k) == hs + Memory(k - 1) + [Buf(k - 1), Mr(k - 1)];
    }
  }

  /** The state after the buffers and regions, up to the first failure. */
  function AddMemoryGot(s: State, n: nat, o: CreateEnv): State
  {
    var k := Min(n, Min(o.bufFailsAt, o.mrFailsAt));
    var t := AddMemory(s, k);
    if k < n && k < o.bufFailsAt then Add(t, Buf(k)) else t
  }

  lemma ObtainMemoryGotSteps(s: State, hs: seq<Handle>, n: nat, o: CreateEnv)
    ensures Obtain(s, hs + MemoryGot(n, o)) == AddMemoryGot(Obtain(s, hs), n, o)
  {
    var k := Min(n, Min(o.bufFailsAt, o.mrFailsAt));
    ObtainMemorySteps(s, hs, k);
    if k < n && k < o.bufFailsAt {
      assert hs + MemoryGot(n, o) == hs + Memory(k) + [Buf(k)];
      ObtainSnoc(s, hs + Memory(k), Buf(k));
    } else {
      assert MemoryGot(n, o) == Memory(k);
    }
  }

  lemma ObtainGotSteps(s: State, n: nat, o: CreateEnv)
    ensures o.open && o.port && o.pd && o.device && o.sendCq ==>
              Obtain(s, Got(n, o)) == if o.qpFailsAt < n then AddQps(AddQueues(s, o), o.qpFailsAt)
                                      else AddMemoryGot(AddQps(AddQueues(s, o), n), n, o)
    ensures !o.open ==> Obtain(s, Got(n, o)) == s
    ensures o.open && (!o.port || !o.pd) ==> Obtain(s, Got(n, o)) == Add(s, Context)
    ensures o.open && o.port && o.pd && (!o.device || !o.sendCq) ==> Obtain(s, Got(n, o)) == Add(Add(s, Context), Pd)
  {
    ObtainQueuesSteps(s, o);
    ObtainQpsSteps(s, Queues(o), Min(n, o.qpFailsAt));
    ObtainMemoryGotSteps(s, Queues(o) + Qps(n), n, o);
  }

  class RdmaContext {
    const n: nat      // config->qp_count
    const id: nat     // the address of the connection id
    var cmId: nat     // 0 when null
    var context: Pointer
    var pd: Pointer
    var sendCq: Pointer
    var recvCq: Pointer
    const qp: array<Pointer>
    const mr: array<Pointer>
    const buf: array<Pointer>
    var connected: int
    var cqeCount: int

    ghost var model: State  // the abstract state: handles held, answers owed, ledger

    ghost function Ptr(h: Handle): Pointer
      reads this`model
    {
      if h in model.held then To(h) else Null
    }

    ghost predicate Valid()
      reads this, qp, mr, buf
    {
      && id != 0 && qp.Length == mr.Length == buf.Length == n && qp != mr && qp != buf && mr != buf
      && cmId == (if CmId in model.held then id else 0) && context == Ptr(Context) && pd == Ptr(Pd)
      && sendCq == Ptr(SendCq) && recvCq == Ptr(RecvCq)
      && (forall i: nat | i < n :: qp[i] == Ptr(Qp(i)))
      && (forall i: nat | i < n :: mr[i] == Ptr(Mr(i)))
      && (forall i: nat | i < n :: buf[i] == Ptr(Buf(i)))
      && model.n == n && model.id == id && connected == (if model.connected then 1 else 0)
      && (CmId !in model.held ==> model.pending.Idle?)
    }

    /** `fs_rdma_connect`: a context with a fresh id and null pointers, asking for the address. */
    constructor (n: nat, id: nat, resolveOk: bool)
      requires id != 0
      ensures Valid() && model == Start(n, id, resolveOk)
      ensures cmId == id && context == pd == sendCq == recvCq == Null && connected == 0
      ensures forall i: nat | i < n :: qp[i] == buf[i] == mr[i] == Null
      ensures model.trace == [Create(CmId), ResolveAddr] && model.pending == (if resolveOk then Addr else Idle)
      ensures fresh(qp) && fresh(mr) && fresh(buf)
    {
      this.n, this.id, cmId := n, id, id;
      context, pd, sendCq, recvCq, connected, cqeCount := Null, Null, Null, Null, 0, 0;
      qp := new Pointer[n](_ => Null);
      mr := new Pointer[n](_ => Null);
      buf := new Pointer[n](_ => Null);
      model := Start(n, id, resolveOk);
    }

    /** A foreign constructor: a pointer to the new object, or null. */
    method Make(h: Handle, ok: bool) returns (p: Pointer)
      modifies this`model
      ensures if ok then p == To(h) && model == Add(old(model), h) else p == Null && model == old(model)
    {
      if !ok {
        return Null;
      }
      model := Add(model, h);
      p := To(h);
    }

    /** A foreign destructor, called through a non-null pointer. */
    method Free(p: Pointer)
      requires p.To?
      modifies this`model
      ensures model == old(model).(held := old(model).held - {p.h}, trace := old(model).trace + [Destroy(p.h)])
    {
      model := model.(held := model.held - {p.h}, trace := model.trace + [Destroy(p.h)]);
    }

    /** Frees what the pointer to h points to, if anything; the caller nulls the pointer. */
    method FreeIfSet(p: Pointer, ghost h: Handle)
      requires p == Ptr(h)
      modifies this`model
      ensures model == Drop(old(model), h)
    {
      if p != Null {
        Free(p);
      } else {
        assert model == Drop(model, h) by { DropAbsent(model, h); }
      }
    }

    method ReleaseQp(i: nat)
      requires Valid() && i < n
      modifies this`model, qp
      ensures Valid() && model == Drop(old(model), Qp(i))
    {
      FreeIfSet(qp[i], Qp(i));
      qp[i] := Null;
    }

    method ReleaseMr(i: nat)
      requires Valid() && i < n
      modifies this`model, mr
      ensures Valid() && model == Drop(old(model), Mr(i))
    {
      FreeIfSet(mr[i], Mr(i));
      mr[i] := Null;
    }

    method ReleaseBuf(i: nat)
      requires Valid() && i < n
      modifies this`model, buf
      ensures Valid() && model == Drop(old(model), Buf(i))
    {
      FreeIfSet(buf[i], Buf(i));
      buf[i] := Null;
    }

    /** The release loop shared in form by rollback and teardown. */
    method ReleaseSlots()
      requires Valid()
      modifies this`model, qp, mr, buf
      ensures Valid() && model == DropSlots(old(model), n)
    {
      ghost var s0 := model;
      var i := 0;
      while i < n
        invariant 0 <= i <= n && Valid() && model == DropSlots(s0, i)
      {
        ReleaseQp(i);
        ReleaseMr(i);
        ReleaseBuf(i);
        i := i + 1;
      }
    }

    method ReleaseQueues()
      requires Valid()
      modifies this`model, this`sendCq, this`recvCq
      ensures Valid() && model == Drop(Drop(old(model), SendCq), RecvCq)
    {
      FreeIfSet(sendCq, SendCq);
      sendCq := Null;
      FreeIfSet(recvCq, RecvCq);
      recvCq := Null;
    }

    method ReleaseQueuesAndPd()
      requires Valid()
      modifies this`model, this`sendCq, this`recvCq, this`pd
      ensures Valid() && model == DropQueuesAndPd(old(model))
    {
      ReleaseQueues();
      FreeIfSet(pd, Pd);
      pd := Null;
    }

    /** The part of `fs_rdma_create_resources` behind the label `out`. */
    method Rollback()
      requires Valid()
      modifies this`model, this`sendCq, this`recvCq, this`pd, this`context, qp, mr, buf
      ensures Valid() && model == Release(old(model), RollbackOrder(n))
    {
      ReleaseTailSteps(model, Context);
      ReleaseSlots();
      ReleaseQueuesAndPd();
      FreeIfSet(context, Context);
      context := Null;
    }

    /** `fs_rdma_teardown` */
    method Teardown()
      requires Valid()
      modifies this`model, this`sendCq, this`recvCq, this`pd, this`cmId, qp, mr, buf
      ensures Valid() && model == AfterTeardown(old(model))
    {
      ReleaseTailSteps(model, CmId);
      ReleaseSlots();
      ReleaseQueuesAndPd();
      if cmId != 0 {
        Free(To(CmId));
        cmId := 0;
      } else {
        DropAbsent(model, CmId);
      }
      model := model.(pending := Idle);  // no answer comes for a destroyed id
    }

    method AcquireQps(o: CreateEnv) returns (ret: int)
      requires Valid() && forall h | h in model.held :: !h.Qp?
      modifies this`model, qp
      ensures ret == (if n <= o.qpFailsAt then 0 else -1)
      ensures Valid() && model == AddQps(old(model), Min(n, o.qpFailsAt))
    {
      ghost var s0 := model;
      var i := 0;
      while i < n
        invariant 0 <= i <= n && i <= o.qpFailsAt && Valid() && model == AddQps(s0, i)
      {
        var p := Make(Qp(i), i != o.qpFailsAt);
        if p == Null {
          return -1;
        }
        qp[i] := p;
        i := i + 1;
      }
      ret := 0;
    }

    /** One buffer and its region. */
    method AcquireBuffer(i: nat, bufOk: bool, mrOk: bool) returns (ret: int)
      requires Valid() && i < n && Buf(i) !in model.held && Mr(i) !in model.held
      modifies this`model, buf, mr
      ensures ret == (if bufOk && mrOk then 0 else -1) && Valid()
      ensures var s := old(model);
              model == if !bufOk then s else if !mrOk then Add(s, Buf(i)) else Add(Add(s, Buf(i)), Mr(i))
    {
      var b := Make(Buf(i), bufOk);
      if b == Null {
        return -1;
      }
      buf[i] := b;
      var m := Make(Mr(i), mrOk);
      if m == Null {
        return -1;
      }
      mr[i] := m;
      ret := 0;
    }

    method AcquireMemory(o: CreateEnv) returns (ret: int)
      requires Valid() && forall h | h in model.held :: !h.Buf? && !h.Mr?
      modifies this`model, buf, mr
      ensures ret == (if n <= o.bufFailsAt && n <= o.mrFailsAt then 0 else -1)
      ensures Valid() && model == AddMemoryGot(old(model), n, o)
    {
      ghost var s0 := model;
      var i := 0;
      while i < n
        invariant 0 <= i <= n && i <= o.bufFailsAt && i <= o.mrFailsAt && Valid() && model == AddMemory(s0, i)
      {
        AddMemoryHeld(s0, i);
        ret := AcquireBuffer(i, i != o.bufFailsAt, i != o.mrFailsAt);
        if ret == -1 {
          return;
        }
        i := i + 1;
      }
      ret := 0;
    }

    /** The depth of both completion queues. */
    method SizeQueues(maxCqe: int)
      modifies this`cqeCount
      ensures cqeCount == CompletionQueues.CqeCount(n, maxCqe)
    {
      cqeCount := Int32(CompletionQueues.DEFAULT_BUF_DEPTH * n);
      cqeCount := if cqeCount > maxCqe then maxCqe else cqeCount;
    }

    method AcquireSendCq(ok: bool)
      requires Valid() && SendCq !in model.held
      modifies this`model, this`sendCq
      ensures Valid() && model == (if ok then Add(old(model), SendCq) else old(model))
      ensures sendCq == Null <==> !ok
    {
      sendCq := Make(SendCq, ok);
    }

    method AcquireRecvCq(ok: bool)
      requires Valid() && RecvCq !in model.held
      modifies this`model, this`recvCq
      ensures Valid() && model == (if ok then Add(old(model), RecvCq) else old(model))
    {
      recvCq := Make(RecvCq, ok);
    }

    /** Both completion queues, of the same depth. The check of the second looks at the first again. */
    method AcquireQueues(o: CreateEnv) returns (ret: int)
      requires Valid() && SendCq !in model.held && RecvCq !in model.held
      modifies this`model, this`sendCq, this`recvCq, this`cqeCount
      ensures ret == (if o.sendCq then 0 else -1)
      ensures Valid() && cqeCount == CompletionQueues.CqeCount(n, o.maxCqe)
      ensures var s := old(model);
              model == if !o.sendCq then s else if o.recvCq then Add(Add(s, SendCq), RecvCq) else Add(s, SendCq)
    {
      SizeQueues(o.maxCqe);
      AcquireSendCq(o.sendCq);
      if sendCq == Null {
        return -1;
      }
      AcquireRecvCq(o.recvCq);
      if sendCq == Null {
        return -1;
      }
      ret := 0;
    }

    /** The device, its port and its protection domain. */
    method AcquireDevice(o: CreateEnv) returns (ret: int)
      requires Valid() && model.held <= {CmId}
      modifies this`model, this`pd, this`context
      ensures ret == (if o.open && o.port && o.pd && o.device then 0 else -1)
      ensures var s := old(model);
              model == if !o.open then s else if !o.port || !o.pd then Add(s, Context) else Add(Add(s, Context), Pd)
      ensures Valid()
    {
      context := Make(Context, o.open);
      if context == Null {
        return -1;
      }
      if !o.port {
        return -1;
      }
      pd := Make(Pd, o.pd);
      if pd == Null {
        return -1;
      }
      ret := if o.device then 0 else -1;
    }

    /** The part of `fs_rdma_create_resources` in front of the label `out`. */
    method Acquire(o: CreateEnv) returns (ret: int)
      requires Valid() && model.held <= {CmId}
      modifies this`model, this`sendCq, this`recvCq, this`pd, this`context, this`cqeCount, qp, mr, buf
      ensures ret == (if CreateOk(n, o) then 0 else -1)
      ensures Valid() && model == Obtain(old(model), Got(n, o))
      ensures ret == 0 ==> cqeCount == CompletionQueues.CqeCount(n, o.maxCqe)
    {
      ObtainGotSteps(model, n, o);
      ret := AcquireDevice(o);
      if ret == 0 {
        ret := AcquireQueues(o);
      }
      if ret == 0 {
        ret := AcquireQpsAndMemory(o);
      }
    }

    method AcquireQpsAndMemory(o: CreateEnv) returns (ret: int)
      requires Valid() && model.held <= {CmId, Context, Pd, SendCq, RecvCq}
      modifies this`model, qp, mr, buf
      ensures ret == (if n <= o.qpFailsAt && n <= o.bufFailsAt && n <= o.mrFailsAt then 0 else -1)
      ensures Valid()
      ensures model == if o.qpFailsAt < n then AddQps(old(model), o.qpFailsAt)
                        else AddMemoryGot(AddQps(old(model), n), n, o)
    {
      AddQpsHeld(model, n);
      ret := AcquireQps(o);
      if ret == 0 {
        ret := AcquireMemory(o);
      }
    }

    /**
     * `fs_rdma_create_resources`, from null pointers: everything is made when every call but that for the
     * receive queue succeeds, and nothing is left otherwise.
     */
    method CreateResources(o: CreateEnv) returns (ret: int)
      requires Valid() && model.held <= {CmId}
      modifies this`model, this`sendCq, this`recvCq, this`pd, this`context, this`cqeCount, qp, mr, buf
      ensures ret == (if o.open && o.port && o.pd && o.device && o.sendCq
                         && n <= o.qpFailsAt && n <= o.bufFailsAt && n <= o.mrFailsAt then 0 else -1)
      ensures ret == 0 ==> context == To(Context) && pd == To(Pd) && sendCq == To(SendCq)
                           && recvCq == (if o.recvCq then To(RecvCq) else Null)
                           && forall i: nat | i < n :: qp[i] == To(Qp(i)) && buf[i] == To(Buf(i)) && mr[i] == To(Mr(i))
      ensures ret == -1 ==> context == pd == sendCq == recvCq == Null
                            && forall i: nat | i < n :: qp[i] == buf[i] == mr[i] == Null
      ensures Valid() && model == AfterCreate(old(model), o)
      ensures ret == 0 ==> cqeCount == CompletionQueues.CqeCount(n, o.maxCqe)
    {
      CreationHolds(model, o);
      ret := Acquire(o);
      if ret == -1 {
        Rollback();
        NoneSet();
      } else {
        AllSet(o.recvCq);
      }
    }

    lemma AllSet(recv: bool)
      requires Valid() && forall h | h != CmId :: h in model.held <==> InRange(h, n) && (h == RecvCq ==> recv)
      ensures context == To(Context) && pd == To(Pd) && sendCq == To(SendCq)
      ensures recvCq == if recv then To(RecvCq) else Null
      ensures forall i: nat | i < n :: qp[i] == To(Qp(i)) && buf[i] == To(Buf(i)) && mr[i] == To(Mr(i))
    {
    }

    lemma NoneSet()
      requires Valid() && model.held <= {CmId, Context}
      ensures Context !in model.held ==> context == Null
      ensures pd == sendCq == recvCq == Null
      ensures forall i: nat | i < n :: qp[i] == buf[i] == mr[i] == Null
    {
    }

    method HandleAddrResolved(routeOk: bool)
      requires Valid() && CmId in model.held && model.pending.Idle?
      modifies this, qp, mr, buf
      ensures Valid() && model == AfterAddrResolved(old(model), routeOk)
    {
      model := Record(model, ResolveRoute);
      if !routeOk {
        Teardown();
        return;
      }
      model := model.(pending := Route);
    }

    method HandleRouteResolved(r: Reply)
      requires Valid() && model.held == {CmId} && model.pending.Idle?
      modifies this, qp, mr, buf
      ensures Valid() && model == AfterRouteResolved(old(model), r)
    {
      ghost var s0 := model;
      CreateKeepsId(s0, r.create);
      var ret := CreateResources(r.create);
      if ret != 0 {
        Teardown();
        return;
      }
      AskToConnect(r.connectOk);
    }

    method AskToConnect(ok: bool)
      requires Valid() && CmId in model.held
      modifies this, qp, mr, buf
      ensures Valid()
      ensures var t := Record(old(model), Connect); model == if ok then t.(pending := Conn) else AfterTeardown(t)
    {
      model := Record(model, Connect);
      if !ok {
        Teardown();
        return;
      }
      model := model.(pending := Conn);
    }

    /** `fs_rdma_cm_handle_connect_init` */
    method HandleConnectInit(eventId: nat)
      requires Valid()
      modifies this`model, this`connected
      ensures Valid() && model == AfterEstablished(old(model), eventId)
    {
      var ret := 0;
      if connected == 1 {
        ret := -1;
      }
      if eventId != cmId {
        ret := -1;
      }
      if ret < 0 {
        model := Record(model, Disconnect);
      } else {
        model := Record(model, MarkConnected(eventId)).(connected := true);
        connected := 1;
      }
    }

    /** What the invariant and the connection manager grant the handler of an event. */
    static ghost predicate Prepared(s: State, e: Event)
    {
      && (e.kind.AddrResolved? ==> CmId in s.held)
      && (e.kind.RouteResolved? ==> s.held == {CmId})
    }

    method HandleAnswer(d: Delivery)
      requires Valid() && Prepared(model, d.event)
      requires d.event.kind.AddrResolved? || d.event.kind.RouteResolved? ==> model.pending.Idle?
      modifies this, qp, mr, buf
      ensures Valid() && model == AfterAnswer(old(model), d)
    {
      match d.event.kind {
        case AddrResolved => HandleAddrResolved(d.reply.routeOk);
        case RouteResolved => HandleRouteResolved(d.reply);
        case Established => HandleConnectInit(d.event.id);
        case _ =>
      }
    }

    /** One event: errors and disconnects are acknowledged before their handler runs, the others after. */
    method HandleEvent(d: Delivery)
      requires Valid() && Prepared(model, d.event)
      modifies this, qp, mr, buf
      ensures Valid() && model == Turn(old(model), d)
    {
      model := Deliver(model, d.event);
      if TearsDown(d.event.kind) {
        model := Record(model, Ack);
        Teardown();
        return;
      }
      HandleAnswer(d);
      model := Record(model, Ack);
    }

    /** `fs_rdma_cm_event_handler`: handles every event the channel yields, until it yields no more. */
    method EventLoop(ds: seq<Delivery>)
      requires Valid() && Inv(model) && AllAllowed(model, ds)
      modifies this, qp, mr, buf
      ensures Valid() && model == Run(old(model), ds) && Inv(model)
      ensures cmId == 0 ==> pd == sendCq == recvCq == Null && forall i: nat | i < n :: qp[i] == buf[i] == mr[i] == Null
    {
      var i := 0;
      while true
        invariant 0 <= i <= |ds| && Valid() && Inv(model) && AllAllowed(model, ds[i..])
        invariant Run(model, ds[i..]) == Run(old(model), ds)
        decreases |ds| - i
      {
        if i == |ds| {
          if cmId == 0 {
            NoneSet();
          }
          break;
        }
        TurnInv(model, ds[i]);
        HandleEvent(ds[i]);
        assert ds[i..][1..] == ds[i + 1..];
        i := i + 1;
      }
    }
  }

  lemma {:induction false} AddQpsHeld(s: State, k: nat)
    ensures forall h | h in AddQps(s, k).held :: h in s.held || h.Qp?
    decreases k
  {
    if k > 0 { AddQpsHeld(s, k - 1); }
  }

  lemma {:induction false} AddMemoryHeld(s: State, k: nat)
    requires forall h | h in s.held :: !h.Buf? && !h.Mr?
    ensures forall h | h in AddMemory(s, k).held && (h.Buf? || h.Mr?) :: h.i < k
    decreases k
  {
    if k > 0 { AddMemoryHeld(s, k - 1); }
  }

  lemma CreationHolds(s: State, o: CreateEnv)
    requires s.held <= {CmId}
    ensures forall h | h != CmId ::
              h in AfterCreate(s, o).held <==> CreateOk(s.n, o) && InRange(h, s.n) && (h == RecvCq ==> o.recvCq)
    ensures !CreateOk(s.n, o) ==> AfterCreate(s, o).held <= {CmId}
  {
    forall h | h != CmId
      ensures h in AfterCreate(s, o).held <==> CreateOk(s.n, o) && InRange(h, s.n) && (h == RecvCq ==> o.recvCq)
    {
      CreationExactly(s, o, h);
    }
  }

  lemma CreateKeepsId(s: State, o: CreateEnv)
    requires CmId in s.held
    ensures CmId in AfterCreate(s, o).held
  {
    SlotsMembers(s.n);
    assert CmId !in RollbackOrder(s.n);
  }
}
