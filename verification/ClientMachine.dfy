/**
 * The client connection as a state machine: what each handler of the event loop does to the
 * handles held by the context and to the ledger, and what every run of the loop keeps.
 */
module ClientMachine {
  import opened Base
  import opened Ledger

  /** Outcomes of the calls of one creation of resources; a FailsAt field names the first failing index. */
  datatype CreateEnv = CreateEnv(open: bool, port: bool, pd: bool, device: bool, maxCqe: int,
                                 sendCq: bool, recvCq: bool,
                                 qpFailsAt: nat, bufFailsAt: nat, mrFailsAt: nat)

  /** Outcomes of the calls made while one event is handled. */
  datatype Reply = Reply(routeOk: bool, create: CreateEnv, connectOk: bool)

  datatype Delivery = Delivery(event: Event, reply: Reply)

  /** The answer the connection manager still owes the client. */
  datatype Pending = Idle | Addr | Route | Conn

  /** held: the handles whose pointers in the context are not null. */
  datatype State = State(n: nat, id: nat, held: set<Handle>, connected: bool, pending: Pending, trace: seq<Op>)

  const EMPTY := Account({}, 0)

  function Qps(k: nat): (hs: seq<Handle>)
    ensures |hs| == k && forall i | 0 <= i < k :: hs[i] == Qp(i)
  {
    if k == 0 then [] else Qps(k - 1) + [Qp(k - 1)]
  }

  function Mrs(k: nat): (hs: seq<Handle>)
    ensures |hs| == k && forall i | 0 <= i < k :: hs[i] == Mr(i)
  {
    if k == 0 then [] else Mrs(k - 1) + [Mr(k - 1)]
  }

  /** A buffer, then its region, for each of the first k indices. */
  function Memory(k: nat): seq<Handle>
  {
    if k == 0 then [] else Memory(k - 1) + [Buf(k - 1), Mr(k - 1)]
  }

  lemma {:induction false} MemoryMembers(k: nat)
    ensures forall h :: h in Memory(k) <==> (h.Buf? || h.Mr?) && h.i < k
    decreases k
  {
    if k > 0 { MemoryMembers(k - 1); }
  }

  /** The release loop: queue pair, region and buffer of each index in turn. */
  function Slots(k: nat): seq<Handle>
  {
    if k == 0 then [] else Slots(k - 1) + [Qp(k - 1), Mr(k - 1), Buf(k - 1)]
  }

  lemma {:induction false} SlotsMembers(k: nat)
    ensures forall h :: h in Slots(k) <==> (h.Qp? || h.Buf? || h.Mr?) && h.i < k
    decreases k
  {
    if k > 0 { SlotsMembers(k - 1); }
  }

  /** Index by index: the queue pair first, then the region, then the buffer behind it. */
  lemma {:induction false} SlotsInOrder(k: nat, i: nat)
    requires i < k
    ensures |Slots(k)| == 3 * k && Slots(k)[3 * i..3 * i + 3] == [Qp(i), Mr(i), Buf(i)]
    decreases k
  {
    if i < k - 1 {
      SlotsInOrder(k - 1, i);
    } else if k > 1 {
      SlotsInOrder(k - 1, 0);
    }
  }

  function RollbackOrder(n: nat): seq<Handle>
  {
    Slots(n) + [SendCq, RecvCq, Pd, Context]
  }

  function TeardownOrder(n: nat): seq<Handle>
  {
    Slots(n) + [SendCq, RecvCq, Pd, CmId]
  }

  /** Nothing tests the receive queue: the check after its creation looks at the send queue again. */
  predicate CreateOk(n: nat, o: CreateEnv)
  {
    o.open && o.port && o.pd && o.device && o.sendCq && n <= o.qpFailsAt && n <= o.bufFailsAt && n <= o.mrFailsAt
  }

  function Queues(o: CreateEnv): seq<Handle>
  {
    [Context, Pd, SendCq] + if o.recvCq then [RecvCq] else []
  }

  function MemoryGot(n: nat, o: CreateEnv): seq<Handle>
  {
    var k := Min(n, Min(o.bufFailsAt, o.mrFailsAt));
    Memory(k) + if k < n && k < o.bufFailsAt then [Buf(k)] else []
  }

  /** The handles obtained before the first failure, in order. */
  function Got(n: nat, o: CreateEnv): seq<Handle>
  {
    if !o.open then []
    else if !o.port || !o.pd then [Context]
    else if !o.device || !o.sendCq then [Context, Pd]
    else if o.qpFailsAt < n then Queues(o) + Qps(o.qpFailsAt)
    else Queues(o) + Qps(n) + MemoryGot(n, o)
  }

  function Record(s: State, op: Op): State
  {
    s.(trace := s.trace + [op])
  }

  function Release(s: State, order: seq<Handle>): State
  {
    s.(held := s.held - Elements(order), trace := s.trace + Releases(order, s.held))
  }

  function Obtain(s: State, hs: seq<Handle>): State
  {
    s.(held := s.held + Elements(hs), trace := s.trace + Creates(hs))
  }

  function AfterCreate(s: State, o: CreateEnv): State
  {
    var t := Obtain(s, Got(s.n, o));
    if CreateOk(s.n, o) then t else Release(t, RollbackOrder(s.n))
  }

  /** Teardown destroys the id, and with it every answer still owed. */
  function AfterTeardown(s: State): State
  {
    Release(s, TeardownOrder(s.n)).(pending := Idle)
  }

  function AfterAddrResolved(s: State, routeOk: bool): State
  {
    var t := Record(s, ResolveRoute);
    if routeOk then t.(pending := Route) else AfterTeardown(t)
  }

  function AfterRouteResolved(s: State, r: Reply): State
  {
    var t := AfterCreate(s, r.create);
    if !CreateOk(s.n, r.create) then AfterTeardown(t)
    else if r.connectOk then Record(t, Connect).(pending := Conn)
    else AfterTeardown(Record(t, Connect))
  }

  /** The context's own id, 0 when null. */
  function OwnId(s: State): nat
  {
    if CmId in s.held then s.id else 0
  }

  function AfterEstablished(s: State, id: nat): State
  {
    if s.connected || id != OwnId(s) then Record(s, Disconnect)
    else Record(s, MarkConnected(id)).(connected := true)
  }

  /** Taking an event off the channel; an answer that was owed is owed no longer. */
  function Deliver(s: State, e: Event): State
  {
    var t := Record(s, Get(e));
    if e.kind.AddrResolved? || e.kind.RouteResolved? || (e.kind.Established? && e.id == s.id)
    then t.(pending := Idle) else t
  }

  /** The handler of an answer or an established event. */
  function AfterAnswer(s: State, d: Delivery): State
  {
    match d.event.kind
    case AddrResolved => AfterAddrResolved(s, d.reply.routeOk)
    case RouteResolved => AfterRouteResolved(s, d.reply)
    case Established => AfterEstablished(s, d.event.id)
    case _ => s
  }

  /** The kinds acknowledged first and then answered by a teardown: the errors and the disconnect. */
  predicate TearsDown(kind: Kind)
  {
    kind.AddrError? || kind.RouteError? || kind.ConnectError?
    || kind.Unreachable? || kind.Rejected? || kind.Disconnected?
  }

  /** A call made while an answer is handled fails, and the handler tears down on the spot. */
  predicate HandlerFails(n: nat, d: Delivery)
  {
    (d.event.kind.AddrResolved? && !d.reply.routeOk)
    || (d.event.kind.RouteResolved? && !(CreateOk(n, d.reply.create) && d.reply.connectOk))
  }

  /** One turn of the event loop. */
  function Turn(s: State, d: Delivery): State
  {
    var t := Deliver(s, d.event);
    if TearsDown(d.event.kind) then AfterTeardown(Record(t, Ack)) else Record(AfterAnswer(t, d), Ack)
  }

  function Run(s: State, ds: seq<Delivery>): State
    decreases |ds|
  {
    if ds == [] then s else Run(Turn(s, ds[0]), ds[1..])
  }

  /** `fs_rdma_connect`: the id exists and address resolution was asked for. */
  function Start(n: nat, id: nat, resolveOk: bool): State
  {
    State(n, id, {CmId}, false, if resolveOk then Addr else Idle, [Create(CmId), ResolveAddr])
  }

  /**
   * What the connection manager may deliver: an answer only when it is owed and for the id that
   * asked; an established event of the context's own id only after its connect call, of another
   * id only while the context has an id; errors, disconnects and the rest at any time.
   */
  ghost predicate Allowed(s: State, e: Event)
  {
    match e.kind
    case AddrResolved => s.pending == Addr && e.id == s.id
    case RouteResolved => s.pending == Route && e.id == s.id
    case Established => CmId in s.held && e.id != 0 && (e.id == s.id ==> s.pending == Conn)
    case _ => true
  }

  ghost predicate AllAllowed(s: State, ds: seq<Delivery>)
    decreases |ds|
  {
    ds == [] || (Allowed(s, ds[0].event) && AllAllowed(Turn(s, ds[0]), ds[1..]))
  }

  // ---- milestones ----

  predicate IsMilestone(op: Op)
  {
    match op
    case Get(e) => e.kind.AddrResolved? || e.kind.RouteResolved?
    case Create(h) => h.Qp? || h.Mr?
    case ResolveAddr => true
    case ResolveRoute => true
    case Connect => true
    case MarkConnected(_) => true
    case _ => false
  }

  /** The operations of a history that satisfy p, in order. */
  function Kept(p: Op -> bool, ops: seq<Op>): seq<Op>
  {
    if ops == [] then []
    else (if p(ops[0]) then [ops[0]] else []) + Kept(p, ops[1..])
  }

  function Milestones(ops: seq<Op>): seq<Op>
  {
    Kept(IsMilestone, ops)
  }

  function Resolved(id: nat): seq<Op>
  {
    [ResolveAddr, Get(Event(AddrResolved, id))]
  }

  function RouteAsked(id: nat): seq<Op>
  {
    Resolved(id) + [ResolveRoute]
  }

  function Routed(id: nat): seq<Op>
  {
    RouteAsked(id) + [Get(Event(RouteResolved, id))]
  }

  function Equipped(n: nat, id: nat): seq<Op>
  {
    Routed(id) + Creates(Qps(n) + Mrs(n))
  }

  function Asked(n: nat, id: nat): seq<Op>
  {
    Equipped(n, id) + [Connect]
  }

  /**
   * Address asked for and resolved, route asked for and resolved, every queue pair, every region, the connect
   * call and the connection, in this order.
   */
  function Canonical(n: nat, id: nat): seq<Op>
  {
    Asked(n, id) + [MarkConnected(id)]
  }

  lemma {:induction false} KeptConcat(p: Op -> bool, a: seq<Op>, b: seq<Op>)
    ensures Kept(p, a + b) == Kept(p, a) + Kept(p, b)
    decreases |a|
  {
    if a == [] {
      assert a + b == b;
    } else {
      assert (a + b)[0] == a[0] && (a + b)[1..] == a[1..] + b;
      KeptConcat(p, a[1..], b);
    }
  }

  lemma KeptSnoc(p: Op -> bool, ops: seq<Op>, op: Op)
    ensures Kept(p, ops + [op]) == Kept(p, ops) + if p(op) then [op] else []
  {
    KeptConcat(p, ops, [op]);
    assert [op][1..] == [];
  }

  lemma MilestonesOne(ops: seq<Op>, op: Op)
    ensures Milestones(ops + [op]) == Milestones(ops) + if IsMilestone(op) then [op] else []
  {
    KeptSnoc(IsMilestone, ops, op);
  }

  lemma {:induction false} ReleasesKept(p: Op -> bool, order: seq<Handle>, held: set<Handle>)
    requires forall h :: !p(Destroy(h))
    ensures Kept(p, Releases(order, held)) == []
    decreases |order|
  {
    if order != [] {
      var first := if order[0] in held then [Destroy(order[0])] else [];
      ReleasesKept(p, order[1..], held - {order[0]});
      KeptConcat(p, first, Releases(order[1..], held - {order[0]}));
    }
  }

  function Marked(hs: seq<Handle>): seq<Handle>
  {
    if hs == [] then []
    else Marked(hs[..|hs| - 1]) + if hs[|hs| - 1].Qp? || hs[|hs| - 1].Mr? then [hs[|hs| - 1]] else []
  }

  lemma {:induction false} MilestonesOfCreates(hs: seq<Handle>)
    ensures Milestones(Creates(hs)) == Creates(Marked(hs))
    decreases |hs|
  {
    if hs != [] {
      var front, h := hs[..|hs| - 1], hs[|hs| - 1];
      MilestonesOfCreates(front);
      assert Creates(hs) == Creates(front) + [Create(h)];
      MilestonesOne(Creates(front), Create(h));
      assert Creates(Marked(front) + [h]) == Creates(Marked(front)) + [Create(h)];
    }
  }

  lemma {:induction false} MarkedConcat(a: seq<Handle>, b: seq<Handle>)
    ensures Marked(a + b) == Marked(a) + Marked(b)
    decreases |b|
  {
    if b == [] {
      assert a + b == a;
    } else {
      assert (a + b)[..|a + b| - 1] == a + b[..|b| - 1];
      MarkedConcat(a, b[..|b| - 1]);
    }
  }

  lemma {:induction false} MarkedQps(k: nat)
    ensures Marked(Qps(k)) == Qps(k)
    decreases k
  {
    if k > 0 {
      MarkedQps(k - 1);
      assert Qps(k)[..k - 1] == Qps(k - 1);
    }
  }

  lemma MarkedSnoc(hs: seq<Handle>, h: Handle)
    ensures Marked(hs + [h]) == Marked(hs) + if h.Qp? || h.Mr? then [h] else []
  {
    assert (hs + [h])[..|hs|] == hs;
  }

  lemma {:induction false} MarkedMemory(k: nat)
    ensures Marked(Memory(k)) == Mrs(k)
    decreases k
  {
    if k > 0 {
      MarkedMemory(k - 1);
      assert Memory(k) == (Memory(k - 1) + [Buf(k - 1)]) + [Mr(k - 1)];
      MarkedSnoc(Memory(k - 1), Buf(k - 1));
      MarkedSnoc(Memory(k - 1) + [Buf(k - 1)], Mr(k - 1));
    }
  }

  lemma MarkedMemoryGot(n: nat, o: CreateEnv)
    ensures Marked(MemoryGot(n, o)) == Mrs(Min(n, Min(o.bufFailsAt, o.mrFailsAt)))
  {
    var k := Min(n, Min(o.bufFailsAt, o.mrFailsAt));
    MarkedMemory(k);
    MarkedSnoc(Memory(k), Buf(k));
    assert Memory(k) + [] == Memory(k);
  }

  lemma MarkedQueues(o: CreateEnv)
    ensures Marked(Queues(o)) == [] && Marked([Context]) == [] && Marked([Context, Pd]) == []
  {
    MarkedSnoc([], Context);
    MarkedSnoc([Context], Pd);
    MarkedSnoc([Context, Pd], SendCq);
    MarkedSnoc([Context, Pd, SendCq], RecvCq);
    assert Queues(o) == if o.recvCq then [Context, Pd, SendCq] + [RecvCq] else [Context, Pd] + [SendCq];
    assert [] + [Context] == [Context] && [Context] + [Pd] == [Context, Pd];
  }

  lemma QpsMrsPrefix(q: nat, m: nat, n: nat)
    requires q <= n && m <= n
    ensures Qps(q) <= Qps(n) + Mrs(n) && Qps(n) + Mrs(m) <= Qps(n) + Mrs(n)
  {
  }

  lemma MarkedQueuesAndQps(o: CreateEnv, q: nat)
    ensures Marked(Queues(o) + Qps(q)) == Qps(q)
  {
    MarkedQueues(o);
    MarkedConcat(Queues(o), Qps(q));
    MarkedQps(q);
  }

  lemma MarkedAll(n: nat, o: CreateEnv)
    ensures Marked(Queues(o) + Qps(n) + MemoryGot(n, o)) == Qps(n) + Mrs(Min(n, Min(o.bufFailsAt, o.mrFailsAt)))
  {
    MarkedQueuesAndQps(o, n);
    MarkedConcat(Queues(o) + Qps(n), MemoryGot(n, o));
    MarkedMemoryGot(n, o);
  }

  /** What is obtained before a failure is an initial part of all queue pairs followed by all regions. */
  lemma MarkedGot(n: nat, o: CreateEnv)
    ensures Marked(Got(n, o)) <= Qps(n) + Mrs(n)
    ensures CreateOk(n, o) ==> Marked(Got(n, o)) == Qps(n) + Mrs(n)
  {
    var k := Min(n, Min(o.bufFailsAt, o.mrFailsAt));
    if !o.open || !o.port || !o.pd || !o.device || !o.sendCq {
      MarkedQueues(o);
      assert Marked([]) == [];
    } else if o.qpFailsAt < n {
      MarkedQueuesAndQps(o, o.qpFailsAt);
      QpsMrsPrefix(o.qpFailsAt, 0, n);
    } else {
      MarkedAll(n, o);
      QpsMrsPrefix(0, k, n);
    }
  }
}
