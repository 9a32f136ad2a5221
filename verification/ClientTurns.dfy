/**
 * What one event does to the client, for each kind of event and each outcome of the calls made: the
 * calls, the objects left, the answer waited for. None of it is said in terms of the handlers.
 */
module ClientTurns {
  import opened Ledger
  import opened ClientMachine
  import opened ClientSafety

  // ---- the calls of one turn ----

  /** Taking and acknowledging events, and calls on the id: everything but creating and destroying. */
  predicate IsCall(op: Op)
  {
    !op.Create? && !op.Destroy?
  }

  function Calls(s: State): seq<Op>
  {
    Kept(IsCall, s.trace)
  }

  lemma CallsRecord(s: State, op: Op)
    requires IsCall(op)
    ensures Calls(Record(s, op)) == Calls(s) + [op]
  {
    KeptSnoc(IsCall, s.trace, op);
  }

  lemma CallsRelease(s: State, order: seq<Handle>)
    ensures Calls(Release(s, order)) == Calls(s)
  {
    ReleasesKept(IsCall, order, s.held);
    KeptConcat(IsCall, s.trace, Releases(order, s.held));
  }

  lemma {:induction false} CreatesKept(hs: seq<Handle>)
    ensures Kept(IsCall, Creates(hs)) == []
    decreases |hs|
  {
    if hs != [] {
      assert Creates(hs)[1..] == Creates(hs[1..]);
      CreatesKept(hs[1..]);
    }
  }

  lemma CallsCreate(s: State, o: CreateEnv)
    ensures Calls(AfterCreate(s, o)) == Calls(s)
  {
    var t := Obtain(s, Got(s.n, o));
    CreatesKept(Got(s.n, o));
    KeptConcat(IsCall, s.trace, Creates(Got(s.n, o)));
    CallsRelease(t, RollbackOrder(s.n));
  }

  lemma CallsRouteAnswer(s: State, r: Reply)
    ensures Calls(AfterRouteResolved(s, r)) == Calls(s) + if CreateOk(s.n, r.create) then [Connect] else []
  {
    var t := AfterCreate(s, r.create);
    CallsCreate(s, r.create);
    CallsRecord(t, Connect);
    CallsRelease(t, TeardownOrder(s.n));
    CallsRelease(Record(t, Connect), TeardownOrder(s.n));
  }

  lemma CallsAddrAnswer(s: State, routeOk: bool)
    ensures Calls(AfterAddrResolved(s, routeOk)) == Calls(s) + [ResolveRoute]
  {
    CallsRecord(s, ResolveRoute);
    CallsRelease(Record(s, ResolveRoute), TeardownOrder(s.n));
  }

  lemma CallsEstablished(s: State, id: nat)
    ensures Calls(AfterEstablished(s, id))
         == Calls(s) + [if s.connected || id != (if CmId in s.held then s.id else 0) then Disconnect
                        else MarkConnected(id)]
  {
    CallsRecord(s, if s.connected || id != OwnId(s) then Disconnect else MarkConnected(id));
  }

  /**
   * Every event is taken and acknowledged once; in between, whatever the state, a resolved address asks for the
   * route, a resolved route asks for the connection if all resources could be made, and an established event
   * marks the context connected, or disconnects it when it is connected already or the id is not its own.
   */
  lemma TurnCalls(s: State, d: Delivery)
    ensures Calls(Turn(s, d)) == Calls(s) + [Get(d.event)]
              + (match d.event.kind
                 case AddrResolved => [ResolveRoute]
                 case RouteResolved => if CreateOk(s.n, d.reply.create) then [Connect] else []
                 case Established =>
                   [if s.connected || d.event.id != (if CmId in s.held then s.id else 0) then Disconnect
                    else MarkConnected(d.event.id)]
                 case _ => [])
              + [Ack]
  {
    var t := Deliver(s, d.event);
    CallsRecord(s, Get(d.event));
    if TearsDown(d.event.kind) {
      CallsRecord(t, Ack);
      CallsRelease(Record(t, Ack), TeardownOrder(s.n));
    } else {
      CallsAddrAnswer(t, d.reply.routeOk);
      CallsRouteAnswer(t, d.reply);
      CallsEstablished(t, d.event.id);
      CallsRecord(AfterAnswer(t, d), Ack);
    }
  }

  /** Each address answer taken is followed at once by asking for the route, and the route is asked for nowhere else. */
  ghost predicate RouteFollowsAddress(calls: seq<Op>)
  {
    && (forall k | 0 <= k < |calls| && calls[k].Get? && calls[k].e.kind.AddrResolved? ::
          k + 1 < |calls| && calls[k + 1] == ResolveRoute)
    && (forall k | 0 <= k < |calls| && calls[k] == ResolveRoute ::
          k > 0 && calls[k - 1].Get? && calls[k - 1].e.kind.AddrResolved?)
  }

  lemma FollowedByOthers(calls: seq<Op>, op: Op)
    requires RouteFollowsAddress(calls) && op != ResolveRoute && !(op.Get? && op.e.kind.AddrResolved?)
    ensures RouteFollowsAddress(calls + [op])
  {
  }

  lemma FollowedByRoute(calls: seq<Op>, e: Event)
    requires RouteFollowsAddress(calls) && e.kind.AddrResolved?
    ensures RouteFollowsAddress(calls + [Get(e)] + [ResolveRoute])
  {
    assert (calls + [Get(e)] + [ResolveRoute])[|calls|] == Get(e);
  }

  lemma RouteFollowsTurn(s: State, d: Delivery)
    requires RouteFollowsAddress(Calls(s))
    ensures RouteFollowsAddress(Calls(Turn(s, d)))
  {
    var c, e := Calls(s), d.event;
    TurnCalls(s, d);
    if e.kind.AddrResolved? {
      FollowedByRoute(c, e);
      FollowedByOthers(c + [Get(e)] + [ResolveRoute], Ack);
    } else {
      FollowedByOthers(c, Get(e));
      FollowedByOthers(c + [Get(e)], Ack);
      if Calls(Turn(s, d)) == c + [Get(e)] + [] + [Ack] {
        assert c + [Get(e)] + [] == c + [Get(e)];
      } else {
        var op := if e.kind.RouteResolved? then Connect
                  else if s.connected || e.id != (if CmId in s.held then s.id else 0) then Disconnect
                  else MarkConnected(e.id);
        FollowedByOthers(c + [Get(e)], op);
        FollowedByOthers(c + [Get(e)] + [op], Ack);
      }
    }
  }

  lemma {:induction false} RouteFollowsRun(s: State, ds: seq<Delivery>)
    requires RouteFollowsAddress(Calls(s))
    ensures RouteFollowsAddress(Calls(Run(s, ds)))
    decreases |ds|
  {
    if ds != [] {
      RouteFollowsTurn(s, ds[0]);
      RouteFollowsRun(Turn(s, ds[0]), ds[1..]);
    }
  }

  /** So it is in every run of one connect, whatever events come. */
  lemma RouteAskedOncePerAddress(n: nat, id: nat, resolveOk: bool, ds: seq<Delivery>)
    ensures var calls := Calls(Run(Start(n, id, resolveOk), ds));
            RouteFollowsAddress(calls) && calls != [] && calls[0] == ResolveAddr
  {
    var s := Start(n, id, resolveOk);
    assert s.trace[1..] == [ResolveAddr] && s.trace[1..][1..] == [];
    assert Calls(s) == [ResolveAddr];
    RouteFollowsRun(s, ds);
    CallsOnlyGrow(s, ds);
  }

  lemma {:induction false} CallsOnlyGrow(s: State, ds: seq<Delivery>)
    ensures Calls(s) <= Calls(Run(s, ds))
    decreases |ds|
  {
    if ds != [] {
      TurnCalls(s, ds[0]);
      CallsOnlyGrow(Turn(s, ds[0]), ds[1..]);
    }
  }

  // ---- what one turn leaves ----

  /** Everything is live: id, device, domain, queues, and all objects of each index. */
  ghost predicate HoldsAll(s: State, recvCq: bool)
  {
    forall h :: h in s.held <==> InRange(h, s.n) && (h == RecvCq ==> recvCq)
  }

  lemma AddrTurnLeaves(s: State, d: Delivery)
    requires Inv(s) && Allowed(s, d.event) && d.event.kind.AddrResolved?
    ensures var t := Turn(s, d);
            !t.connected && t.held == (if d.reply.routeOk then {CmId} else {})
            && t.pending == if d.reply.routeOk then Route else Idle
  {
    var t := Deliver(s, d.event);
    AnswerTaken(s, d.event);
    RecordSound(t, ResolveRoute, 1, 1);
    TeardownSound(Record(t, ResolveRoute), 1);
  }

  lemma CreationLeaves(s: State, o: CreateEnv)
    requires s.held == {CmId}
    ensures if CreateOk(s.n, o) then HoldsAll(AfterCreate(s, o), o.recvCq) else AfterCreate(s, o).held == {CmId}
  {
    forall h ensures h in AfterCreate(s, o).held <==>
                     if CreateOk(s.n, o) then InRange(h, s.n) && (h == RecvCq ==> o.recvCq) else h == CmId
    {
      CreationExactly(s, o, h);
    }
  }

  lemma ConnectLeaves(s: State, recvCq: bool)
    requires Sound(s, 1) && HoldsAll(s, recvCq)
    ensures AfterTeardown(Record(s, Connect)).held == {Context}
  {
    assert CmId in s.held && Context in s.held;
    RecordSound(s, Connect, 1, 1);
    TeardownSound(Record(s, Connect), 1);
  }

  lemma RouteTurnLeaves(s: State, d: Delivery)
    requires Inv(s) && Allowed(s, d.event) && d.event.kind.RouteResolved?
    ensures var t := Turn(s, d); var o := d.reply.create;
            var made := o.open && o.port && o.pd && o.device && o.sendCq
                        && s.n <= o.qpFailsAt && s.n <= o.bufFailsAt && s.n <= o.mrFailsAt;
            && !t.connected && t.pending == (if made && d.reply.connectOk then Conn else Idle)
            && if !made then t.held == {} else if !d.reply.connectOk then t.held == {Context} else HoldsAll(t, o.recvCq)
  {
    var t, o := Deliver(s, d.event), d.reply.create;
    AnswerTaken(s, d.event);
    CreateSound(t, o, 1);
    CreationLeaves(t, o);
    if CreateOk(s.n, o) {
      ConnectLeaves(AfterCreate(t, o), o.recvCq);
    } else {
      TeardownSound(AfterCreate(t, o), 1);
    }
  }

  /**
   * After an established event, the answers owed are one fewer if it was the context's own, which connects it; an
   * event the loop does not handle changes nothing; an error or a disconnect leaves nothing but an opened device.
   */
  lemma OtherTurnLeaves(s: State, d: Delivery)
    requires Inv(s) && Allowed(s, d.event) && !d.event.kind.AddrResolved? && !d.event.kind.RouteResolved?
    ensures var t := Turn(s, d);
            match d.event.kind
            case Established => t.held == s.held && t.connected == (s.connected || d.event.id == s.id)
                                && t.pending == if d.event.id == s.id then Idle else s.pending
            case Unhandled => t.held == s.held && t.connected == s.connected && t.pending == s.pending
            case AddrError | RouteError | ConnectError | Unreachable | Rejected | Disconnected =>
              t.held == s.held * {Context} && t.connected == s.connected && t.pending.Idle?
  {
    var t := Deliver(s, d.event);
    match d.event.kind
    case Established => EstablishedKeeps(s, d.event);
    case Unhandled =>
    case AddrError | RouteError | ConnectError | Unreachable | Rejected | Disconnected =>
      RecordKeeps(s, Get(d.event), 0, 1);
      RecordKeeps(t, Ack, 1, 0);
      TeardownSound(Record(t, Ack), 0);
  }
}
