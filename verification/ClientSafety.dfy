/** What holds in every run of the client machine, for every number of queue pairs and every failure point. */
module ClientSafety {
  import opened Base
  import opened Ledger
  import opened ClientMachine

  predicate InRange(h: Handle, n: nat)
  {
    h.Qp? || h.Buf? || h.Mr? ==> h.i < n
  }

  /** The history is lawful, and what is live is exactly what the context still points to. */
  ghost predicate Sound(s: State, unacked: nat)
  {
    && Replay(EMPTY, s.trace) == Some(Account(s.held, unacked))
    && (forall h | h in s.held :: InRange(h, s.n) && Needs(h) <= s.held)
  }

  ghost predicate Ready(s: State)
  {
    && {CmId, Context, Pd, SendCq} <= s.held
    && forall i: nat | i < s.n :: Qp(i) in s.held && Buf(i) in s.held && Mr(i) in s.held
  }

  ghost predicate Progress(s: State)
  {
    var m, c := Milestones(s.trace), Canonical(s.n, s.id);
    && m <= c && (s.connected <==> m == c)
    && match s.pending
       case Idle => true
       case Addr => s.held == {CmId} && m == [ResolveAddr]
       case Route => s.held == {CmId} && m == RouteAsked(s.id)
       case Conn => Ready(s) && m == Asked(s.n, s.id)
  }

  /** The invariant, with the given number of events taken and not yet acknowledged. */
  ghost predicate Keeps(s: State, unacked: nat)
  {
    && s.id != 0 && Sound(s, unacked) && Progress(s)
    && (CmId !in s.held ==> s.pending.Idle? && s.held <= {Context})
  }

  /** The invariant at the head of the event loop. */
  ghost predicate Inv(s: State)
  {
    Keeps(s, 0)
  }

  // ---- release orders ----

  lemma OneReleasable(live: set<Handle>, h: Handle)
    requires forall u | u in live :: !Uses(u, h)
    ensures CanRelease(live, [h])
  {
    assert [h][1..] == [];
  }

  lemma SlotReleasable(live: set<Handle>, i: nat)
    ensures CanRelease(live, [Qp(i), Mr(i), Buf(i)])
  {
    var slot := [Qp(i), Mr(i), Buf(i)];
    assert slot[1..] == [Mr(i), Buf(i)] && slot[1..][1..] == [Buf(i)];
    OneReleasable(live - {Qp(i)} - {Mr(i)}, Buf(i));
  }

  /** The release loop never meets a user: queue pairs and regions have none, and each buffer follows its region. */
  lemma {:induction false} SlotsReleasable(live: set<Handle>, k: nat)
    ensures CanRelease(live, Slots(k))
    decreases k
  {
    if k > 0 {
      SlotsReleasable(live, k - 1);
      SlotReleasable(live - Elements(Slots(k - 1)), k - 1);
      CanReleaseConcat(live, Slots(k - 1), [Qp(k - 1), Mr(k - 1), Buf(k - 1)]);
    }
  }

  lemma TailReleasable(live: set<Handle>, last: Handle)
    requires forall h | h in live :: !h.Qp? && !h.Buf? && !h.Mr?
    requires last == Context || last == CmId
    ensures CanRelease(live, [SendCq, RecvCq, Pd, last])
  {
    var tail := [SendCq, RecvCq, Pd, last];
    assert tail[1..] == [RecvCq, Pd, last] && tail[1..][1..] == [Pd, last] && tail[1..][1..][1..] == [last];
    OneReleasable(live - {SendCq} - {RecvCq} - {Pd}, last);
  }

  lemma WithoutSlots(held: set<Handle>, n: nat)
    requires forall h | h in held :: InRange(h, n)
    ensures forall h :: h in held - Elements(Slots(n)) <==> h in held && !h.Qp? && !h.Buf? && !h.Mr?
  {
    SlotsMembers(n);
  }

  lemma LeftAfterRelease(held: set<Handle>, n: nat, last: Handle)
    requires forall h | h in held :: InRange(h, n)
    requires last == Context || last == CmId
    ensures held - Elements(Slots(n) + [SendCq, RecvCq, Pd, last])
         == held * (if last == Context then {CmId} else {Context})
  {
    SlotsMembers(n);
    var order := Slots(n) + [SendCq, RecvCq, Pd, last];
    var left := if last == Context then CmId else Context;
    forall h | h in held ensures h in order <==> h != left {
      if h.Qp? || h.Buf? || h.Mr? {
        assert h in Slots(n);
      } else {
        assert h in order <==> h in [SendCq, RecvCq, Pd, last];
      }
    }
  }

  lemma ReleaseReplays(s: State, last: Handle, unacked: nat)
    requires Sound(s, unacked) && (last == Context || last == CmId)
    ensures var order := Slots(s.n) + [SendCq, RecvCq, Pd, last];
            Replay(EMPTY, Release(s, order).trace) == Some(Account(s.held - Elements(order), unacked))
  {
    var tail := [SendCq, RecvCq, Pd, last];
    var order := Slots(s.n) + tail;
    WithoutSlots(s.held, s.n);
    SlotsReleasable(s.held, s.n);
    TailReleasable(s.held - Elements(Slots(s.n)), last);
    CanReleaseConcat(s.held, Slots(s.n), tail);
    ReleasesLawful(Account(s.held, unacked), order);
    ReplayConcat(EMPTY, s.trace, Releases(order, s.held));
  }

  /** Teardown is lawful wherever it runs, and leaves nothing live but an opened device. */
  lemma TeardownSound(s: State, unacked: nat)
    requires Sound(s, unacked)
    ensures Sound(AfterTeardown(s), unacked) && AfterTeardown(s).held == s.held * {Context}
  {
    ReleaseReplays(s, CmId, unacked);
    LeftAfterRelease(s.held, s.n, CmId);
  }

  /** Rollback is lawful after any partial creation, and leaves only the connection id. */
  lemma RollbackSound(s: State, unacked: nat)
    requires Sound(s, unacked)
    ensures Sound(Release(s, RollbackOrder(s.n)), unacked)
    ensures Release(s, RollbackOrder(s.n)).held == s.held * {CmId}
  {
    ReleaseReplays(s, Context, unacked);
    LeftAfterRelease(s.held, s.n, Context);
  }

  lemma RecordSound(s: State, op: Op, before: nat, after: nat)
    requires Sound(s, before) && Apply(Account(s.held, before), op) == Some(Account(s.held, after))
    ensures Sound(Record(s, op), after)
  {
    ReplayConcat(EMPTY, s.trace, [op]);
    ReplayOne(Account(s.held, before), op);
  }

  // ---- creation ----

  lemma QueuesCreatable(o: CreateEnv)
    ensures CanCreate({CmId}, Queues(o)) && CanCreate({CmId}, [Context, Pd]) && CanCreate({CmId}, [Context])
    ensures Elements(Queues(o)) == {Context, Pd, SendCq} + if o.recvCq then {RecvCq} else {}
  {
    var queues := [Context, Pd, SendCq];
    assert queues[1..] == [Pd, SendCq] && queues[1..][1..] == [SendCq];
    assert [Context, Pd][1..] == [Pd];
    OneCreatable({CmId}, Context);
    OneCreatable({CmId} + {Context}, Pd);
    OneCreatable({CmId} + {Context} + {Pd}, SendCq);
    OneCreatable({CmId} + Elements(queues), RecvCq);
    CanCreateConcat({CmId}, queues, if o.recvCq then [RecvCq] else []);
  }

  lemma OneCreatable(live: set<Handle>, h: Handle)
    requires h !in live && Needs(h) <= live
    ensures CanCreate(live, [h])
  {
    assert [h][1..] == [];
  }

  lemma {:induction false} QpsCreatable(live: set<Handle>, k: nat)
    requires {CmId, Pd, SendCq} <= live && forall h | h in live :: !h.Qp?
    ensures CanCreate(live, Qps(k))
    decreases k
  {
    if k > 0 {
      QpsCreatable(live, k - 1);
      OneCreatable(live + Elements(Qps(k - 1)), Qp(k - 1));
      CanCreateConcat(live, Qps(k - 1), [Qp(k - 1)]);
    }
  }

  lemma PairCreatable(live: set<Handle>, i: nat)
    requires Pd in live && Buf(i) !in live && Mr(i) !in live
    ensures CanCreate(live, [Buf(i), Mr(i)]) && CanCreate(live, [Buf(i)])
  {
    OneCreatable(live, Buf(i));
    OneCreatable(live + Elements([Buf(i)]), Mr(i));
    CanCreateConcat(live, [Buf(i)], [Mr(i)]);
    assert [Buf(i)] + [Mr(i)] == [Buf(i), Mr(i)];
  }

  lemma NextPairCreatable(live: set<Handle>, before: seq<Handle>, k: nat)
    requires Pd in live && forall h | h in live :: !h.Buf? && !h.Mr?
    requires CanCreate(live, before) && forall h | h in before :: (h.Buf? || h.Mr?) && h.i < k
    ensures CanCreate(live, before + [Buf(k), Mr(k)]) && CanCreate(live, before + [Buf(k)])
  {
    assert Buf(k) !in before && Mr(k) !in before;
    PairCreatable(live + Elements(before), k);
    CanCreateConcat(live, before, [Buf(k), Mr(k)]);
    CanCreateConcat(live, before, [Buf(k)]);
  }

  lemma MemoryStep(live: set<Handle>, k: nat)
    requires Pd in live && (forall h | h in live :: !h.Buf? && !h.Mr?) && CanCreate(live, Memory(k))
    ensures CanCreate(live, Memory(k) + [Buf(k), Mr(k)])
  {
    MemoryMembers(k);
    NextPairCreatable(live, Memory(k), k);
  }

  lemma {:induction false} MemoryCreatable(live: set<Handle>, k: nat)
    requires Pd in live && forall h | h in live :: !h.Buf? && !h.Mr?
    ensures CanCreate(live, Memory(k))
    decreases k
  {
    if k > 0 {
      MemoryCreatable(live, k - 1);
      MemoryStep(live, k - 1);
    }
  }

  lemma MemoryGotCreatable(live: set<Handle>, n: nat, o: CreateEnv)
    requires Pd in live && forall h | h in live :: !h.Buf? && !h.Mr?
    ensures CanCreate(live, MemoryGot(n, o))
  {
    var k := Min(n, Min(o.bufFailsAt, o.mrFailsAt));
    MemoryCreatable(live, k);
    MemoryMembers(k);
    NextPairCreatable(live, Memory(k), k);
    assert Memory(k) + [] == Memory(k);
  }

  lemma QueuesAndQpsCreatable(o: CreateEnv, q: nat)
    ensures CanCreate({CmId}, Queues(o) + Qps(q))
    ensures Pd in Elements(Queues(o) + Qps(q)) && forall h | h in Elements(Queues(o) + Qps(q)) :: !h.Buf? && !h.Mr?
  {
    QueuesCreatable(o);
    var live := {CmId} + Elements(Queues(o));
    assert CmId in live && Pd in live && SendCq in live;
    QpsCreatable(live, q);
    CanCreateConcat({CmId}, Queues(o), Qps(q));
    assert Elements(Queues(o) + Qps(q)) == Elements(Queues(o)) + Elements(Qps(q));
  }

  /** The acquisition order respects every need, up to any failure. */
  lemma GotCreatable(n: nat, o: CreateEnv)
    ensures CanCreate({CmId}, Got(n, o))
  {
    if !o.open || !o.port || !o.pd || !o.device || !o.sendCq {
      QueuesCreatable(o);
    } else if o.qpFailsAt < n {
      QueuesAndQpsCreatable(o, o.qpFailsAt);
    } else {
      QueuesAndQpsCreatable(o, n);
      MemoryGotCreatable({CmId} + Elements(Queues(o) + Qps(n)), n, o);
      CanCreateConcat({CmId}, Queues(o) + Qps(n), MemoryGot(n, o));
    }
  }

  lemma GotInRange(n: nat, o: CreateEnv)
    ensures forall h | h in Got(n, o) :: InRange(h, n)
    ensures CreateOk(n, o) ==> {Context, Pd, SendCq} <= Elements(Got(n, o))
    ensures CreateOk(n, o) ==> forall i: nat | i < n :: Qp(i) in Got(n, o) && Buf(i) in Got(n, o) && Mr(i) in Got(n, o)
  {
    MemoryMembers(Min(n, Min(o.bufFailsAt, o.mrFailsAt)));
    if CreateOk(n, o) {
      assert Queues(o)[0] == Context && Queues(o)[1] == Pd && Queues(o)[2] == SendCq;
      assert Context in Queues(o) && Pd in Queues(o) && SendCq in Queues(o);
      forall i: nat | i < n ensures Qp(i) in Got(n, o) {
        assert Qps(n)[i] == Qp(i);
      }
    }
  }

  lemma ObtainSound(s: State, hs: seq<Handle>, unacked: nat)
    requires Sound(s, unacked) && CanCreate(s.held, hs) && forall h | h in hs :: InRange(h, s.n)
    ensures Sound(Obtain(s, hs), unacked)
  {
    CreatesLawful(Account(s.held, unacked), hs);
    ReplayConcat(EMPTY, s.trace, Creates(hs));
    CreatedHaveNeeds(s.held, hs);
  }

  /** Creation either obtains everything or gives everything back, lawfully, from a context holding only its id. */
  lemma CreateSound(s: State, o: CreateEnv, unacked: nat)
    requires Sound(s, unacked) && s.held == {CmId}
    ensures Sound(AfterCreate(s, o), unacked)
    ensures if CreateOk(s.n, o) then Ready(AfterCreate(s, o)) else AfterCreate(s, o).held == {CmId}
  {
    var t := Obtain(s, Got(s.n, o));
    GotCreatable(s.n, o);
    GotInRange(s.n, o);
    ObtainSound(s, Got(s.n, o), unacked);
    RollbackSound(t, unacked);
  }

  /** Exactly what a creation obtains, call by call: each object needs every call before its own to succeed. */
  lemma GotExactly(n: nat, o: CreateEnv, h: Handle)
    ensures var queues := o.open && o.port && o.pd && o.device && o.sendCq;
            h in Got(n, o) <==>
              match h
              case CmId => false
              case Context => o.open
              case Pd => o.open && o.port && o.pd
              case SendCq => queues
              case RecvCq => queues && o.recvCq
              case Qp(i) => queues && i < n && i < o.qpFailsAt
              case Buf(i) => queues && n <= o.qpFailsAt && i < n && i < o.bufFailsAt && i <= o.mrFailsAt
              case Mr(i) => queues && n <= o.qpFailsAt && i < n && i < o.bufFailsAt && i < o.mrFailsAt
  {
    QueuesCreatable(o);
    assert h in Queues(o) <==> h in Elements(Queues(o));
    QpsMembers(Min(n, o.qpFailsAt), h);
    MemoryGotMembers(n, o, h);
  }

  lemma MemoryGotMembers(n: nat, o: CreateEnv, h: Handle)
    ensures h in MemoryGot(n, o) <==>
              || (h.Buf? && h.i < n && h.i < o.bufFailsAt && h.i <= o.mrFailsAt)
              || (h.Mr? && h.i < n && h.i < o.bufFailsAt && h.i < o.mrFailsAt)
  {
    MemoryMembers(Min(n, Min(o.bufFailsAt, o.mrFailsAt)));
  }

  lemma QpsMembers(k: nat, h: Handle)
    ensures h in Qps(k) <==> h.Qp? && h.i < k
  {
    if h.Qp? && h.i < k {
      assert Qps(k)[h.i] == h;
    }
  }

  /**
   * What is live after a creation, over the outcomes of its calls: everything for the index range when they all
   * succeed, the receive queue if it could be made, and otherwise nothing that was not there before.
   */
  lemma CreationExactly(s: State, o: CreateEnv, h: Handle)
    requires s.held <= {CmId}
    ensures h in AfterCreate(s, o).held <==>
              if o.open && o.port && o.pd && o.device && o.sendCq
                 && s.n <= o.qpFailsAt && s.n <= o.bufFailsAt && s.n <= o.mrFailsAt
              then h in s.held || (h != CmId && InRange(h, s.n) && (h == RecvCq ==> o.recvCq))
              else h in s.held
  {
    var t := Obtain(s, Got(s.n, o));
    GotExactly(s.n, o, h);
    GotInRange(s.n, o);
    LeftAfterRelease(t.held, s.n, Context);
    GotExactly(s.n, o, CmId);
  }

  /**
   * A successful creation has a receive queue exactly when that queue could be created: the check behind
   * it tests the send queue again, so a missing receive queue stops nothing.
   */
  lemma ReceiveQueueUnchecked(s: State, o: CreateEnv)
    requires s.held == {CmId} && CreateOk(s.n, o)
    ensures RecvCq in AfterCreate(s, o).held <==> o.recvCq
  {
    MemoryMembers(s.n);
    if o.recvCq {
      assert Queues(o)[3] == RecvCq;
    }
  }

  // ---- milestones of one turn ----

  lemma ReleaseMilestones(s: State, order: seq<Handle>)
    ensures Milestones(Release(s, order).trace) == Milestones(s.trace)
  {
    ReleasesKept(IsMilestone, order, s.held);
    KeptConcat(IsMilestone, s.trace, Releases(order, s.held));
  }

  lemma StagesInOrder(n: nat, id: nat)
    ensures [ResolveAddr] < Resolved(id) < RouteAsked(id) < Routed(id) < Canonical(n, id)
    ensures Asked(n, id) < Canonical(n, id) && |Equipped(n, id)| < |Asked(n, id)|
    ensures |Resolved(id)| > 0
  {
  }

  lemma StagePrefix(n: nat, id: nat, hs: seq<Handle>)
    requires hs <= Qps(n) + Mrs(n)
    ensures Routed(id) + Creates(hs) <= Equipped(n, id) < Canonical(n, id)
  {
    CreatesPrefix(hs, Qps(n) + Mrs(n));
  }

  lemma CreateMilestones(s: State, o: CreateEnv)
    requires Milestones(s.trace) == Routed(s.id)
    ensures Milestones(AfterCreate(s, o).trace) <= Equipped(s.n, s.id) < Canonical(s.n, s.id)
    ensures CreateOk(s.n, o) ==> Milestones(AfterCreate(s, o).trace) == Equipped(s.n, s.id)
  {
    var hs := Got(s.n, o);
    var t := Obtain(s, hs);
    KeptConcat(IsMilestone, s.trace, Creates(hs));
    MilestonesOfCreates(hs);
    MarkedGot(s.n, o);
    StagePrefix(s.n, s.id, Marked(hs));
    ReleaseMilestones(t, RollbackOrder(s.n));
  }

  lemma CreatesPrefix(a: seq<Handle>, b: seq<Handle>)
    requires a <= b
    ensures Creates(a) <= Creates(b)
  {
  }

  // ---- the invariant over turns and runs ----

  /** An operation that is no milestone and leaves the handles alone keeps the invariant. */
  lemma RecordKeeps(s: State, op: Op, before: nat, after: nat)
    requires Keeps(s, before) && !IsMilestone(op)
    requires Apply(Account(s.held, before), op) == Some(Account(s.held, after))
    ensures Keeps(Record(s, op), after)
  {
    RecordSound(s, op, before, after);
    MilestonesOne(s.trace, op);
  }

  lemma TeardownKeeps(s: State, unacked: nat)
    requires s.id != 0 && Sound(s, unacked) && Progress(s)
    ensures Keeps(AfterTeardown(s), unacked)
    ensures AfterTeardown(s).held == s.held * {Context} && AfterTeardown(s).connected == s.connected
  {
    TeardownSound(s, unacked);
    ReleaseMilestones(s, TeardownOrder(s.n));
  }

  /** After an address or route answer was taken, the machine is at the next milestone and owes nothing. */
  lemma AnswerTaken(s: State, e: Event)
    requires Inv(s) && Allowed(s, e) && (e.kind.AddrResolved? || e.kind.RouteResolved?)
    ensures var t := Deliver(s, e);
            && Keeps(t, 1) && t.held == {CmId} && t.pending.Idle? && !t.connected
            && Milestones(t.trace) == if e.kind.AddrResolved? then Resolved(s.id) else Routed(s.id)
  {
    RecordSound(s, Get(e), 0, 1);
    MilestonesOne(s.trace, Get(e));
    StagesInOrder(s.n, s.id);
  }

  lemma AddrResolvedKeeps(s: State, routeOk: bool)
    requires Keeps(s, 1) && s.held == {CmId} && s.pending.Idle? && Milestones(s.trace) == Resolved(s.id)
    ensures Keeps(AfterAddrResolved(s, routeOk), 1)
  {
    var t := Record(s, ResolveRoute);
    StagesInOrder(s.n, s.id);
    RecordSound(s, ResolveRoute, 1, 1);
    MilestonesOne(s.trace, ResolveRoute);
    TeardownKeeps(t, 1);
  }

  /** Creating resources from a routed context gives a context that is fully equipped, or holds only its id again. */
  lemma CreateKeeps(s: State, o: CreateEnv)
    requires Keeps(s, 1) && s.held == {CmId} && s.pending.Idle? && Milestones(s.trace) == Routed(s.id)
    ensures Keeps(AfterCreate(s, o), 1) && AfterCreate(s, o).pending.Idle? && !AfterCreate(s, o).connected
    ensures CreateOk(s.n, o) ==> Ready(AfterCreate(s, o)) && Milestones(AfterCreate(s, o).trace) == Equipped(s.n, s.id)
  {
    StagesInOrder(s.n, s.id);
    CreateSound(s, o, 1);
    CreateMilestones(s, o);
  }

  lemma ConnectKeeps(s: State)
    requires Keeps(s, 1) && Ready(s) && s.pending.Idle? && !s.connected && Milestones(s.trace) == Equipped(s.n, s.id)
    ensures Keeps(Record(s, Connect), 1) && Keeps(Record(s, Connect).(pending := Conn), 1)
  {
    StagesInOrder(s.n, s.id);
    RecordSound(s, Connect, 1, 1);
    MilestonesOne(s.trace, Connect);
  }

  lemma RouteResolvedKeeps(s: State, r: Reply)
    requires Keeps(s, 1) && s.held == {CmId} && s.pending.Idle? && Milestones(s.trace) == Routed(s.id)
    ensures Keeps(AfterRouteResolved(s, r), 1)
  {
    CreateKeeps(s, r.create);
    var t := AfterCreate(s, r.create);
    if !CreateOk(s.n, r.create) {
      TeardownKeeps(t, 1);
    } else {
      ConnectKeeps(t);
      TeardownKeeps(Record(t, Connect), 1);
    }
  }

  lemma EstablishedKeeps(s: State, e: Event)
    requires Inv(s) && Allowed(s, e) && e.kind.Established?
    ensures Keeps(AfterEstablished(Deliver(s, e), e.id), 1)
    ensures AfterEstablished(Deliver(s, e), e.id).connected <==> s.connected || e.id == s.id
  {
    RecordKeeps(s, Get(e), 0, 1);
    var t := Deliver(s, e);
    StagesInOrder(s.n, s.id);
    var op := if t.connected || e.id != OwnId(t) then Disconnect else MarkConnected(e.id);
    RecordSound(t, op, 1, 1);
    MilestonesOne(s.trace, Get(e));
    MilestonesOne(t.trace, op);
  }

  lemma AnswerKeeps(s: State, d: Delivery)
    requires Inv(s) && Allowed(s, d.event) && !TearsDown(d.event.kind)
    ensures Keeps(AfterAnswer(Deliver(s, d.event), d), 1)
  {
    var t := Deliver(s, d.event);
    match d.event.kind
    case AddrResolved => AnswerTaken(s, d.event); AddrResolvedKeeps(t, d.reply.routeOk);
    case RouteResolved => AnswerTaken(s, d.event); RouteResolvedKeeps(t, d.reply);
    case Established => EstablishedKeeps(s, d.event);
    case Unhandled => RecordKeeps(s, Get(d.event), 0, 1);
    case _ =>
  }

  lemma ErrorKeeps(s: State, e: Event)
    requires Inv(s) && TearsDown(e.kind)
    ensures Inv(AfterTeardown(Record(Deliver(s, e), Ack)))
  {
    RecordKeeps(s, Get(e), 0, 1);
    RecordKeeps(Deliver(s, e), Ack, 1, 0);
    TeardownKeeps(Record(Deliver(s, e), Ack), 0);
  }

  /** One turn of the loop keeps the invariant, for every event that may come and every outcome of the calls made. */
  lemma TurnInv(s: State, d: Delivery)
    requires Inv(s) && Allowed(s, d.event)
    ensures Inv(Turn(s, d))
  {
    if TearsDown(d.event.kind) {
      ErrorKeeps(s, d.event);
    } else {
      AnswerKeeps(s, d);
      RecordKeeps(AfterAnswer(Deliver(s, d.event), d), Ack, 1, 0);
    }
  }

  lemma {:induction false} RunInv(s: State, ds: seq<Delivery>)
    requires Inv(s) && AllAllowed(s, ds)
    ensures Inv(Run(s, ds))
    decreases |ds|
  {
    if ds != [] {
      TurnInv(s, ds[0]);
      RunInv(Turn(s, ds[0]), ds[1..]);
    }
  }

  lemma StartInv(n: nat, id: nat, resolveOk: bool)
    requires id != 0
    ensures Inv(Start(n, id, resolveOk))
  {
    ReplayOne(EMPTY, Create(CmId));
    ReplayOne(Account({CmId}, 0), ResolveAddr);
    ReplayConcat(EMPTY, [Create(CmId)], [ResolveAddr]);
    assert EMPTY.live + {CmId} == {CmId} && [Create(CmId)] + [ResolveAddr] == Start(n, id, resolveOk).trace;
    MilestonesOne([], Create(CmId));
    MilestonesOne([Create(CmId)], ResolveAddr);
    assert [] + [Create(CmId)] == [Create(CmId)];
    StagesInOrder(n, id);
  }

  // ---- the results, for every run of one connect ----

  /**
   * In every run each object is created and destroyed lawfully (never twice, never under a live user,
   * never overwritten while live), what is live is what the context points to, no event is left
   * unacknowledged at the loop head, and once the id is gone at most the opened device is live.
   */
  lemma ResourcesBalance(n: nat, id: nat, resolveOk: bool, ds: seq<Delivery>)
    requires id != 0 && AllAllowed(Start(n, id, resolveOk), ds)
    ensures var s := Run(Start(n, id, resolveOk), ds);
            && Replay(EMPTY, s.trace) == Some(Account(s.held, 0))
            && (CmId !in s.held ==> s.held <= {Context})
  {
    StartInv(n, id, resolveOk);
    RunInv(Start(n, id, resolveOk), ds);
  }

  /**
   * The context counts as connected exactly when every milestone has been passed, in order (address asked for
   * and resolved, route asked for and resolved, queue pairs, regions, the connect call, the connection); until
   * then it has passed the first few.
   */
  lemma ConnectedInOrder(n: nat, id: nat, resolveOk: bool, ds: seq<Delivery>)
    requires id != 0 && AllAllowed(Start(n, id, resolveOk), ds)
    ensures var s := Run(Start(n, id, resolveOk), ds);
            var path := [ResolveAddr, Get(Event(AddrResolved, id)), ResolveRoute, Get(Event(RouteResolved, id))]
                        + Creates(Qps(n) + Mrs(n)) + [Connect, MarkConnected(id)];
            Milestones(s.trace) <= path && (s.connected <==> Milestones(s.trace) == path) && (s.connected ==> resolveOk)
  {
    assert Canonical(n, id)
        == [ResolveAddr, Get(Event(AddrResolved, id)), ResolveRoute, Get(Event(RouteResolved, id))]
           + Creates(Qps(n) + Mrs(n)) + [Connect, MarkConnected(id)];
    StartInv(n, id, resolveOk);
    RunInv(Start(n, id, resolveOk), ds);
    ConnectedStays(Start(n, id, resolveOk), ds);
    if !resolveOk {
      LateRun(Start(n, id, resolveOk), ds);
    }
  }

  /** Once connected, the context counts as connected for the rest of every run, teardown included. */
  lemma {:induction false} ConnectedStays(s: State, ds: seq<Delivery>)
    ensures Run(s, ds).n == s.n && Run(s, ds).id == s.id
    ensures s.connected ==> Run(s, ds).connected
    decreases |ds|
  {
    if ds != [] {
      ConnectedStays(Turn(s, ds[0]), ds[1..]);
    }
  }

  /**
   * The turn that connects has every queue pair, buffer and region live, and its event names the context's own
   * id.
   */
  lemma ConnectingTurn(s: State, d: Delivery)
    requires Inv(s) && Allowed(s, d.event) && !s.connected && Turn(s, d).connected
    ensures d.event == Event(Established, s.id) && Ready(s) && Ready(Turn(s, d))
  {
    StagesInOrder(s.n, s.id);
    TurnInv(s, d);
  }

  lemma NoIdAfterTeardown(s: State)
    ensures CmId !in AfterTeardown(s).held
  {
    assert TeardownOrder(s.n)[|Slots(s.n)| + 3] == CmId;
  }

  /** Whatever made a turn tear down, nothing but an opened device is live after it. */
  lemma EveryTeardownCleansUp(s: State, d: Delivery)
    requires Inv(s) && Allowed(s, d.event)
    requires var (k, o) := (d.event.kind, d.reply.create);
             || k.AddrError? || k.RouteError? || k.ConnectError? || k.Unreachable? || k.Rejected? || k.Disconnected?
             || (k.AddrResolved? && !d.reply.routeOk)
             || (k.RouteResolved? && !(o.open && o.port && o.pd && o.device && o.sendCq && d.reply.connectOk
                                       && s.n <= o.qpFailsAt && s.n <= o.bufFailsAt && s.n <= o.mrFailsAt))
    ensures Turn(s, d).held <= {Context}
  {
    var t := Deliver(s, d.event);
    NoIdAfterTeardown(Record(t, Ack));
    NoIdAfterTeardown(Record(t, ResolveRoute));
    NoIdAfterTeardown(AfterCreate(t, d.reply.create));
    NoIdAfterTeardown(Record(AfterCreate(t, d.reply.create), Connect));
    TurnInv(s, d);
  }

  lemma AddressStep(s: State, d: Delivery)
    requires Inv(s) && s.pending == Addr && d.event == Event(AddrResolved, s.id) && d.reply.routeOk
    ensures var t := Turn(s, d); Inv(t) && t.pending == Route && t.n == s.n && t.id == s.id
  {
    TurnInv(s, d);
  }

  lemma RouteStep(s: State, d: Delivery)
    requires Inv(s) && s.pending == Route && d.event == Event(RouteResolved, s.id)
    requires CreateOk(s.n, d.reply.create) && d.reply.connectOk
    ensures var t := Turn(s, d); Inv(t) && t.pending == Conn && t.n == s.n && t.id == s.id
  {
    TurnInv(s, d);
  }

  lemma ConnectStep(s: State, d: Delivery)
    requires Inv(s) && s.pending == Conn && d.event == Event(Established, s.id)
    ensures Turn(s, d).connected && Ready(Turn(s, d))
  {
    EstablishedKeeps(s, d.event);
  }

  /**
   * When every call succeeds (but perhaps the one for the receive queue), the three answers in a row are allowed
   * and connect, for every number of queue pairs.
   */
  lemma ConnectsWhenAllSucceeds(n: nat, id: nat, r: Reply)
    requires id != 0 && r.routeOk && r.connectOk
    requires var o := r.create; o.open && o.port && o.pd && o.device && o.sendCq
    requires n <= r.create.qpFailsAt && n <= r.create.bufFailsAt && n <= r.create.mrFailsAt
    ensures var ds := [Delivery(Event(AddrResolved, id), r), Delivery(Event(RouteResolved, id), r),
                       Delivery(Event(Established, id), r)];
            && AllAllowed(Start(n, id, true), ds)
            && Run(Start(n, id, true), ds).connected && Ready(Run(Start(n, id, true), ds))
  {
    var d0, d1, d2 := Delivery(Event(AddrResolved, id), r), Delivery(Event(RouteResolved, id), r),
                      Delivery(Event(Established, id), r);
    var s0 := Start(n, id, true);
    StartInv(n, id, true);
    AddressStep(s0, d0);
    RouteStep(Turn(s0, d0), d1);
    ConnectStep(Turn(Turn(s0, d0), d1), d2);
    ThreeTurns(s0, d0, d1, d2);
  }

  lemma ThreeTurns(s: State, d0: Delivery, d1: Delivery, d2: Delivery)
    ensures Run(s, [d0, d1, d2]) == Turn(Turn(Turn(s, d0), d1), d2)
    ensures AllAllowed(s, [d0, d1, d2]) <==>
              Allowed(s, d0.event) && Allowed(Turn(s, d0), d1.event) && Allowed(Turn(Turn(s, d0), d1), d2.event)
  {
    var s1 := Turn(s, d0);
    var s2 := Turn(s1, d1);
    var s3 := Turn(s2, d2);
    assert [d0, d1, d2][1..] == [d1, d2] && [d1, d2][1..] == [d2] && [d2][1..] == [];
    assert Run(s1, [d1, d2]) == Run(s2, [d2]) == Run(s3, []) == s3;
    assert AllAllowed(s3, []);
    assert AllAllowed(s2, [d2]) <==> Allowed(s2, d2.event);
    assert AllAllowed(s1, [d1, d2]) <==> Allowed(s1, d1.event) && Allowed(s2, d2.event);
  }

  // ---- the receive queue over runs ----

  /** Once the route answer is in, or none is to come, only a teardown changes the handles, and it takes the id. */
  lemma LateTurn(s: State, d: Delivery)
    requires Inv(s) && (s.pending.Idle? || s.pending.Conn?) && Allowed(s, d.event)
    ensures !d.event.kind.RouteResolved?
    ensures var t := Turn(s, d);
            && Inv(t) && (t.pending.Idle? || t.pending.Conn?)
            && (CmId in t.held ==> t.held == s.held)
            && (s.pending.Idle? && !s.connected ==> t.pending.Idle? && !t.connected)
  {
    TurnInv(s, d);
    NoIdAfterTeardown(Record(Deliver(s, d.event), Ack));
  }

  lemma {:induction false} LateRun(s: State, ds: seq<Delivery>)
    requires Inv(s) && (s.pending.Idle? || s.pending.Conn?) && AllAllowed(s, ds)
    ensures forall d | d in ds :: !d.event.kind.RouteResolved?
    ensures CmId in Run(s, ds).held ==> Run(s, ds).held == s.held
    ensures s.pending.Idle? && !s.connected ==> !Run(s, ds).connected
    decreases |ds|
  {
    if ds != [] {
      assert ds == [ds[0]] + ds[1..];
      LateTurn(s, ds[0]);
      LateRun(Turn(s, ds[0]), ds[1..]);
    }
  }

  /** The turn of the route answer: connecting with what creation made, or torn down for good. */
  lemma RouteAnswerTurn(s: State, d: Delivery)
    requires Inv(s) && Allowed(s, d.event) && d.event.kind.RouteResolved?
    ensures var t := Turn(s, d);
            && Inv(t) && !t.connected
            && if HandlerFails(s.n, d) then t.pending.Idle? && CmId !in t.held
               else t.pending.Conn? && (RecvCq in t.held <==> d.reply.create.recvCq)
  {
    var t := Deliver(s, d.event);
    TurnInv(s, d);
    AnswerTaken(s, d.event);
    CreateKeeps(t, d.reply.create);
    NoIdAfterTeardown(AfterCreate(t, d.reply.create));
    NoIdAfterTeardown(Record(AfterCreate(t, d.reply.create), Connect));
    if CreateOk(s.n, d.reply.create) {
      ReceiveQueueUnchecked(t, d.reply.create);
    }
  }

  /** Before the route answer a turn waits on, or tears down for good. */
  lemma EarlyTurn(s: State, d: Delivery)
    requires Inv(s) && (s.pending.Addr? || s.pending.Route?) && Allowed(s, d.event) && !d.event.kind.RouteResolved?
    ensures var t := Turn(s, d);
            && Inv(t) && !t.connected
            && (t.pending.Addr? || t.pending.Route? || (t.pending.Idle? && CmId !in t.held))
  {
    var t := Deliver(s, d.event);
    StagesInOrder(s.n, s.id);
    TurnInv(s, d);
    NoIdAfterTeardown(Record(t, Ack));
    NoIdAfterTeardown(Record(t, ResolveRoute));
  }

  /** The run takes a route answer whose creation succeeds and makes a receive queue or not, as given. */
  ghost predicate RouteAnswer(n: nat, ds: seq<Delivery>, recvCq: bool)
  {
    exists d :: d in ds && d.event.kind.RouteResolved? && CreateOk(n, d.reply.create) && d.reply.create.recvCq == recvCq
  }

  lemma {:induction false} EarlyRun(s: State, ds: seq<Delivery>)
    requires Inv(s) && (s.pending.Addr? || s.pending.Route?) && AllAllowed(s, ds)
    ensures var u := Run(s, ds);
            u.connected && CmId in u.held ==> forall b :: RouteAnswer(s.n, ds, b) <==> (b == (RecvCq in u.held))
    decreases |ds|
  {
    StagesInOrder(s.n, s.id);
    if ds != [] {
      var d, rest := ds[0], ds[1..];
      var t, u := Turn(s, d), Run(s, ds);
      assert ds == [d] + rest;
      ConnectedStays(s, [d]);
      assert [d][1..] == [];
      if d.event.kind.RouteResolved? {
        RouteAnswerTurn(s, d);
        LateRun(t, rest);
        forall b | u.connected && CmId in u.held ensures RouteAnswer(s.n, ds, b) <==> (b == (RecvCq in u.held)) {
          assert d in ds;
        }
      } else {
        EarlyTurn(s, d);
        if t.pending.Idle? {
          LateRun(t, rest);
        } else {
          EarlyRun(t, rest);
          forall b ensures RouteAnswer(s.n, ds, b) <==> RouteAnswer(s.n, rest, b) {
          }
        }
      }
    }
  }

  /**
   * Every connected context that still has its id took one successful route answer, and its receive queue is
   * live exactly when that answer's creation made one.
   */
  lemma ConnectedReceiveQueue(n: nat, id: nat, resolveOk: bool, ds: seq<Delivery>)
    requires id != 0 && AllAllowed(Start(n, id, resolveOk), ds)
    requires Run(Start(n, id, resolveOk), ds).connected && CmId in Run(Start(n, id, resolveOk), ds).held
    ensures RouteAnswer(n, ds, true) <==> RecvCq in Run(Start(n, id, resolveOk), ds).held
    ensures RouteAnswer(n, ds, false) <==> RecvCq !in Run(Start(n, id, resolveOk), ds).held
  {
    var s := Start(n, id, resolveOk);
    StartInv(n, id, resolveOk);
    if s.pending.Addr? {
      EarlyRun(s, ds);
    } else {
      LateRun(s, ds);
    }
  }

  /** A run that connects without a receive queue: every call succeeds but the one that creates it. */
  lemma ConnectsWithoutReceiveQueue(n: nat, id: nat, r: Reply)
    requires id != 0 && r.routeOk && r.connectOk && !r.create.recvCq
    requires var o := r.create; o.open && o.port && o.pd && o.device && o.sendCq
    requires n <= r.create.qpFailsAt && n <= r.create.bufFailsAt && n <= r.create.mrFailsAt
    ensures var ds := [Delivery(Event(AddrResolved, id), r), Delivery(Event(RouteResolved, id), r),
                       Delivery(Event(Established, id), r)];
            && AllAllowed(Start(n, id, true), ds)
            && Run(Start(n, id, true), ds).connected && RecvCq !in Run(Start(n, id, true), ds).held
  {
    var ds := [Delivery(Event(AddrResolved, id), r), Delivery(Event(RouteResolved, id), r),
               Delivery(Event(Established, id), r)];
    ConnectsWhenAllSucceeds(n, id, r);
    ConnectedReceiveQueue(n, id, true, ds);
    assert ds[1] in ds;
    assert RouteAnswer(n, ds, false);
  }
}
