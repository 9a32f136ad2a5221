/**
 * Acknowledgement of connection-manager events, and when the id is destroyed while an event
 * taken from it is still unacknowledged. (Destroying an id waits for its events to be
 * acknowledged, so the event loop must not do it first.)
 */
module ClientAcks {
  import opened Ledger
  import opened ClientMachine
  import opened ClientSafety

  function Count(op: Op, unacked: nat): nat
  {
    match op
    case Get(_) => unacked + 1
    case Ack => if unacked > 0 then unacked - 1 else 0
    case _ => unacked
  }

  /** Events taken and not acknowledged at the end of a history. */
  function Unacked(ops: seq<Op>, before: nat): nat
    decreases |ops|
  {
    if ops == [] then before else Unacked(ops[1..], Count(ops[0], before))
  }

  /** Somewhere in the history the id is destroyed with an event outstanding. */
  predicate DestroysUnacked(ops: seq<Op>, before: nat)
    decreases |ops|
  {
    ops != [] && ((ops[0] == Destroy(CmId) && before > 0) || DestroysUnacked(ops[1..], Count(ops[0], before)))
  }

  lemma {:induction false} Concat(x: seq<Op>, y: seq<Op>, before: nat)
    ensures Unacked(x + y, before) == Unacked(y, Unacked(x, before))
    ensures DestroysUnacked(x + y, before) <==> DestroysUnacked(x, before) || DestroysUnacked(y, Unacked(x, before))
    decreases |x|
  {
    if x == [] {
      assert x + y == y;
    } else {
      assert (x + y)[0] == x[0] && (x + y)[1..] == x[1..] + y;
      Concat(x[1..], y, Count(x[0], before));
    }
  }

  lemma {:induction false} OfReleases(order: seq<Handle>, held: set<Handle>, before: nat)
    ensures Unacked(Releases(order, held), before) == before
    ensures DestroysUnacked(Releases(order, held), before) <==> before > 0 && CmId in held && CmId in order
    decreases |order|
  {
    if order != [] {
      var first := if order[0] in held then [Destroy(order[0])] else [];
      assert order == [order[0]] + order[1..];
      OfReleases(order[1..], held - {order[0]}, before);
      Concat(first, Releases(order[1..], held - {order[0]}), before);
      assert [Destroy(order[0])][1..] == [];
    }
  }

  lemma {:induction false} OfCreates(hs: seq<Handle>, before: nat)
    ensures Unacked(Creates(hs), before) == before && !DestroysUnacked(Creates(hs), before)
    decreases |hs|
  {
    if hs != [] {
      assert Creates(hs)[1..] == Creates(hs[1..]);
      OfCreates(hs[1..], before);
    }
  }

  function Owed(s: State): nat
  {
    Unacked(s.trace, 0)
  }

  predicate Early(s: State)
  {
    DestroysUnacked(s.trace, 0)
  }

  lemma AfterRecord(s: State, op: Op)
    requires !op.Destroy?
    ensures Owed(Record(s, op)) == Count(op, Owed(s)) && (Early(Record(s, op)) <==> Early(s))
  {
    Concat(s.trace, [op], 0);
    assert [op][1..] == [];
  }

  lemma AfterRelease(s: State, order: seq<Handle>)
    ensures Owed(Release(s, order)) == Owed(s)
    ensures Early(Release(s, order)) <==> Early(s) || (Owed(s) > 0 && CmId in s.held && CmId in order)
  {
    Concat(s.trace, Releases(order, s.held), 0);
    OfReleases(order, s.held, Owed(s));
  }

  lemma AfterDown(s: State)
    ensures Owed(AfterTeardown(s)) == Owed(s)
    ensures Early(AfterTeardown(s)) <==> Early(s) || (Owed(s) > 0 && CmId in s.held)
  {
    AfterRelease(s, TeardownOrder(s.n));
    assert TeardownOrder(s.n)[|Slots(s.n)| + 3] == CmId;
  }

  lemma AfterMade(s: State, o: CreateEnv)
    ensures Owed(AfterCreate(s, o)) == Owed(s) && (Early(AfterCreate(s, o)) <==> Early(s))
    ensures CmId in s.held ==> CmId in AfterCreate(s, o).held
  {
    var t := Obtain(s, Got(s.n, o));
    Concat(s.trace, Creates(Got(s.n, o)), 0);
    OfCreates(Got(s.n, o), Owed(s));
    AfterRelease(t, RollbackOrder(s.n));
    SlotsMembers(s.n);
    assert CmId !in RollbackOrder(s.n);
  }

  lemma RouteTurn(s: State, r: Reply)
    requires Owed(s) == 1
    ensures Owed(AfterRouteResolved(s, r)) == 1
    ensures CmId in s.held ==>
              (Early(AfterRouteResolved(s, r)) <==> Early(s) || !(CreateOk(s.n, r.create) && r.connectOk))
  {
    var t := AfterCreate(s, r.create);
    AfterMade(s, r.create);
    AfterDown(t);
    AfterRecord(t, Connect);
    AfterDown(Record(t, Connect));
  }

  lemma AddrTurn(s: State, routeOk: bool)
    requires Owed(s) == 1
    ensures Owed(AfterAddrResolved(s, routeOk)) == 1
    ensures CmId in s.held ==> (Early(AfterAddrResolved(s, routeOk)) <==> Early(s) || !routeOk)
  {
    AfterRecord(s, ResolveRoute);
    AfterDown(Record(s, ResolveRoute));
  }

  lemma OneTurn(s: State, d: Delivery)
    requires Owed(s) == 0
    ensures Owed(Turn(s, d)) == 0
    ensures CmId in s.held || (!d.event.kind.AddrResolved? && !d.event.kind.RouteResolved?) ==>
              (Early(Turn(s, d)) <==> Early(s) || HandlerFails(s.n, d))
  {
    var t := Deliver(s, d.event);
    AfterRecord(s, Get(d.event));
    match d.event.kind
    case AddrResolved =>
      AddrTurn(t, d.reply.routeOk);
      AfterRecord(AfterAddrResolved(t, d.reply.routeOk), Ack);
    case RouteResolved =>
      RouteTurn(t, d.reply);
      AfterRecord(AfterRouteResolved(t, d.reply), Ack);
    case Established =>
      AfterRecord(t, if t.connected || d.event.id != OwnId(t) then Disconnect else MarkConnected(d.event.id));
      AfterRecord(AfterEstablished(t, d.event.id), Ack);
    case _ =>
      AfterRecord(t, Ack);
      AfterDown(Record(t, Ack));
  }

  /** Whatever events come, in whatever order, the loop is back at its head with none unacknowledged. */
  lemma {:induction false} NothingOwedAtLoopHead(s: State, ds: seq<Delivery>)
    requires Owed(s) == 0
    ensures Owed(Run(s, ds)) == 0
    decreases |ds|
  {
    if ds != [] {
      OneTurn(s, ds[0]);
      NothingOwedAtLoopHead(Turn(s, ds[0]), ds[1..]);
    }
  }

  lemma {:induction false} EarlyOverRun(s: State, ds: seq<Delivery>)
    requires Inv(s) && Owed(s) == 0 && AllAllowed(s, ds)
    ensures Early(Run(s, ds)) <==> Early(s) || exists d :: d in ds && HandlerFails(s.n, d)
    decreases |ds|
  {
    if ds != [] {
      assert ds == [ds[0]] + ds[1..];
      OneTurn(s, ds[0]);
      TurnInv(s, ds[0]);
      ConnectedStays(s, [ds[0]]);
      assert [ds[0]][1..] == [];
      EarlyOverRun(Turn(s, ds[0]), ds[1..]);
    }
  }

  /**
   * The id is destroyed under an unacknowledged event in exactly the runs in which a call made by the
   * address or route handler fails; the error and disconnect branches never do it.
   */
  lemma DestroyedUnderEvent(n: nat, id: nat, resolveOk: bool, ds: seq<Delivery>)
    requires id != 0 && AllAllowed(Start(n, id, resolveOk), ds)
    ensures Early(Run(Start(n, id, resolveOk), ds)) <==>
              exists d :: d in ds && ((d.event.kind.AddrResolved? && !d.reply.routeOk)
                || (d.event.kind.RouteResolved? && !(CreateOk(n, d.reply.create) && d.reply.connectOk)))
  {
    var s := Start(n, id, resolveOk);
    StartInv(n, id, resolveOk);
    assert s.trace[1..] == [ResolveAddr] && s.trace[1..][1..] == [];
    EarlyOverRun(s, ds);
  }

  /** One such run: the route call fails as soon as the address is resolved. */
  lemma DestroyedUnderEventHappens(o: CreateEnv)
    ensures var ds := [Delivery(Event(AddrResolved, 1), Reply(false, o, true))];
            AllAllowed(Start(1, 1, true), ds) && Early(Run(Start(1, 1, true), ds))
  {
    var d := Delivery(Event(AddrResolved, 1), Reply(false, o, true));
    assert AllAllowed(Turn(Start(1, 1, true), d), [d][1..]);
    assert d in [d] && HandlerFails(1, d);
    DestroyedUnderEvent(1, 1, true, [d]);
  }
}
