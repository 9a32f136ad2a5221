/**
 * The synchronous connector: address resolution, route resolution and connection over one
 * event channel, with one retry budget for both resolutions, and the bounded retry around it.
 */
module Connector {
  import opened Base

  datatype Kind = AddrError | AddrResolved | RouteError | RouteResolved | Established | Other

  /** What `rdma_get_cm_event` yields next; past the end of the replies it fails. */
  datatype Reply = GetFails | Got(kind: Kind)

  /** Outcomes of one call of the connector; a FailsAt field counts the calls that succeed first. */
  datatype Attempt = Attempt(hostOk: bool, inetOk: bool, addrFailsAt: nat, routeFailsAt: nat,
                             initOk: bool, recvOk: bool, connectOk: bool, replies: seq<Reply>)

  // ---- one resolution loop ----

  /** The number of errors the replies start with. */
  function Leading(error: Kind, replies: seq<Reply>): nat
  {
    if replies == [] || replies[0] != Got(error) then 0 else 1 + Leading(error, replies[1..])
  }

  lemma {:induction false} LeadingIs(error: Kind, replies: seq<Reply>)
    ensures var m := Leading(error, replies);
            && m <= |replies| && (forall i | 0 <= i < m :: replies[i] == Got(error))
            && (m < |replies| ==> replies[m] != Got(error))
    decreases |replies|
  {
    if replies != [] && replies[0] == Got(error) {
      LeadingIs(error, replies[1..]);
    }
  }

  datatype End = OutOfRetries | CallFails | GetFailure | Resolved | Unexpected

  /** How a loop ends, and after how many errors. */
  datatype Loop = Loop(end: End, errors: nat)
  {
    function Calls(): nat
    {
      errors + if end.OutOfRetries? then 0 else 1
    }

    /** Events taken, each of them acknowledged. */
    function Taken(): nat
    {
      errors + if end.Resolved? || end.Unexpected? then 1 else 0
    }
  }

  /**
   * The loop stops at the first of: no retries left, a failing call, a failing get, an event that is not the
   * error.
   */
  function Resolve(retry: nat, error: Kind, done: Kind, replies: seq<Reply>, failsAt: nat): Loop
  {
    var m := Min(retry, Min(failsAt, Leading(error, replies)));
    Loop(if m == retry then OutOfRetries
         else if m == failsAt then CallFails
         else if m >= |replies| || replies[m] == GetFails then GetFailure
         else if replies[m] == Got(done) then Resolved
         else Unexpected, m)
  }

  /** The replies start with m errors and then the answer. */
  ghost predicate Answers(error: Kind, done: Kind, replies: seq<Reply>, m: nat)
  {
    && m < |replies| && replies[m] == Got(done)
    && forall i | 0 <= i < m :: replies[i] == Got(error)
  }

  lemma AnswersAtLeading(error: Kind, done: Kind, replies: seq<Reply>)
    requires error != done
    ensures forall m: nat :: Answers(error, done, replies, m)
                        <==> m == Leading(error, replies) && m < |replies| && replies[m] == Got(done)
  {
    LeadingIs(error, replies);
  }

  /**
   * A loop resolves exactly when the answer comes after fewer errors than there are retries, and every call up
   * to it succeeds.
   */
  lemma ResolveIff(retry: nat, error: Kind, done: Kind, replies: seq<Reply>, failsAt: nat, m: nat)
    requires error != done
    ensures Resolve(retry, error, done, replies, failsAt) == Loop(Resolved, m)
       <==> m < retry && m < failsAt && Answers(error, done, replies, m)
  {
    AnswersAtLeading(error, done, replies);
  }

  /** The replies start with exactly m errors. */
  ghost predicate Leads(error: Kind, replies: seq<Reply>, m: nat)
  {
    && m <= |replies| && (forall i | 0 <= i < m :: replies[i] == Got(error))
    && (m < |replies| ==> replies[m] != Got(error))
  }

  /** However a loop ends: it makes one call for each error it may still answer, and takes what those calls yield. */
  lemma LoopExactly(retry: nat, error: Kind, done: Kind, replies: seq<Reply>, failsAt: nat, m: nat)
    requires error != done && Leads(error, replies, m)
    ensures var l := Resolve(retry, error, done, replies, failsAt);
            var last := m < retry && m < failsAt && m < |replies|;
            && l.errors == Min(retry, Min(failsAt, m)) && l.Calls() == Min(retry, Min(failsAt, m) + 1)
            && l.Taken() == l.errors + (if last && replies[m].Got? then 1 else 0)
            && (l.end.Resolved? <==> last && replies[m] == Got(done))
  {
    LeadingIs(error, replies);
    assert m == Leading(error, replies);
  }

  // ---- one call of the connector ----

  /**
   * What one call does: events taken, calls made, receives posted, connects issued, and the flag work_rdma_cm
   * it leaves.
   */
  datatype Outcome = Outcome(ok: bool, taken: nat, addrCalls: nat, routeCalls: nat, recvPosts: nat, connects: nat,
                             workOn: bool)

  /** Both loops, the second with what the first left of the budget: whether both resolve, and what they did. */
  function Loops(retries: nat, t: Attempt, workOn: bool): (bool, Outcome)
  {
    var l1 := Resolve(retries, AddrError, AddrResolved, t.replies, t.addrFailsAt);
    if !l1.end.Resolved? then (false, Outcome(false, l1.Taken(), l1.Calls(), 0, 0, 0, workOn))
    else
      var l2 := Resolve(retries - l1.errors, RouteError, RouteResolved, t.replies[l1.Taken()..], t.routeFailsAt);
      (l2.end.Resolved?, Outcome(false, l1.Taken() + l2.Taken(), l1.Calls(), l2.Calls(), 0, 0, workOn))
  }

  function Connect(retries: nat, t: Attempt, workOn: bool): Outcome
  {
    if !t.hostOk || !t.inetOk then Outcome(false, 0, 0, 0, 0, 0, workOn)
    else
      var (resolved, o) := Loops(retries, t, workOn);
      if !resolved then o else Finish(t, o)
  }

  /** From the creation of the context on, after both resolutions. */
  function Finish(t: Attempt, o: Outcome): Outcome
  {
    if !t.initOk then o.(workOn := true)  // returns before the flag is restored
    else
      var o1 := if o.workOn then o else o.(recvPosts := 1);
      if !o.workOn && !t.recvOk then o1
      else
        var o2 := o1.(connects := 1);
        if !t.connectOk || o.taken >= |t.replies| || t.replies[o.taken] == GetFails then o2
        else o2.(ok := t.replies[o.taken] == Got(Established), taken := o.taken + 1)
  }

  /** A run of address errors, the address, a run of route errors, the route, and the connection. */
  ghost predicate Shape(replies: seq<Reply>, a: nat, r: nat)
  {
    && a + r + 3 <= |replies|
    && (forall i | 0 <= i < a :: replies[i] == Got(AddrError)) && replies[a] == Got(AddrResolved)
    && (forall i | a < i <= a + r :: replies[i] == Got(RouteError)) && replies[a + r + 1] == Got(RouteResolved)
    && replies[a + r + 2] == Got(Established)
  }

  /** Both loops resolve, after a and r errors. */
  ghost predicate Resolves(retries: nat, t: Attempt, a: nat, r: nat)
  {
    && a + r < retries && a < t.addrFailsAt && r < t.routeFailsAt
    && Answers(AddrError, AddrResolved, t.replies, a)
    && Answers(RouteError, RouteResolved, t.replies[a + 1..], r)
  }

  /** The call gets as far as creating its context. */
  ghost predicate ReachesInit(retries: nat, t: Attempt)
  {
    t.hostOk && t.inetOk && exists a: nat, r: nat :: Resolves(retries, t, a, r)
  }

  lemma ResolvesOnce(retries: nat, t: Attempt, a: nat, r: nat)
    requires Resolves(retries, t, a, r)
    ensures a == Leading(AddrError, t.replies) && r == Leading(RouteError, t.replies[a + 1..])
  {
    AnswersAtLeading(AddrError, AddrResolved, t.replies);
    AnswersAtLeading(RouteError, RouteResolved, t.replies[a + 1..]);
  }

  /** The two loops, then the connection, are the whole shape. */
  lemma ResolvesShape(retries: nat, t: Attempt, a: nat, r: nat)
    ensures Resolves(retries, t, a, r) && a + r + 2 < |t.replies| && t.replies[a + r + 2] == Got(Established)
       <==> a + r < retries && a < t.addrFailsAt && r < t.routeFailsAt && Shape(t.replies, a, r)
  {
    if a < |t.replies| {
      var tail := t.replies[a + 1..];
      assert forall i | 0 <= i < |tail| :: tail[i] == t.replies[a + 1 + i];
      if Answers(RouteError, RouteResolved, tail, r) {
        assert forall i | a < i <= a + r :: t.replies[i] == tail[i - a - 1];
      }
    }
  }

  lemma LoopsResolved(retries: nat, t: Attempt, workOn: bool, a: nat, r: nat)
    requires Resolves(retries, t, a, r)
    ensures Loops(retries, t, workOn) == (true, Outcome(false, a + r + 2, a + 1, r + 1, 0, 0, workOn))
  {
    ResolveIff(retries, AddrError, AddrResolved, t.replies, t.addrFailsAt, a);
    ResolveIff(retries - a, RouteError, RouteResolved, t.replies[a + 1..], t.routeFailsAt, r);
  }

  /** With both loops resolved the call goes on with what they left. */
  lemma ConnectResolved(retries: nat, t: Attempt, workOn: bool, a: nat, r: nat)
    requires t.hostOk && t.inetOk && Resolves(retries, t, a, r)
    ensures Connect(retries, t, workOn) == Finish(t, Outcome(false, a + r + 2, a + 1, r + 1, 0, 0, workOn))
  {
    LoopsResolved(retries, t, workOn, a, r);
  }

  /** Otherwise it fails, posts and connects nothing and leaves the flag alone. */
  lemma ConnectUnresolved(retries: nat, t: Attempt, workOn: bool)
    requires !ReachesInit(retries, t)
    ensures var o := Connect(retries, t, workOn); !o.ok && o.workOn == workOn && o.recvPosts == 0 && o.connects == 0
  {
    var l1 := Resolve(retries, AddrError, AddrResolved, t.replies, t.addrFailsAt);
    var a := l1.errors;
    ResolveIff(retries, AddrError, AddrResolved, t.replies, t.addrFailsAt, a);
    if l1.end.Resolved? {
      var l2 := Resolve(retries - a, RouteError, RouteResolved, t.replies[a + 1..], t.routeFailsAt);
      ResolveIff(retries - a, RouteError, RouteResolved, t.replies[a + 1..], t.routeFailsAt, l2.errors);
      assert l2.end.Resolved? ==> Resolves(retries, t, a, l2.errors);
    }
  }

  lemma ShapeOnce(replies: seq<Reply>, a: nat, r: nat, b: nat, q: nat)
    requires Shape(replies, a, r) && Shape(replies, b, q)
    ensures a == b && r == q
  {
    var t := Attempt(true, true, a + b + 1, r + q + 1, true, true, true, replies);
    ResolvesShape(a + r + b + q + 1, t, a, r);
    ResolvesShape(a + r + b + q + 1, t, b, q);
    ResolvesOnce(a + r + b + q + 1, t, a, r);
    ResolvesOnce(a + r + b + q + 1, t, b, q);
  }

  /** The number of errors in the two loops, in a shape the attempt can get through. */
  ghost predicate Passes(retries: nat, t: Attempt, a: nat, r: nat)
  {
    Shape(t.replies, a, r) && a + r < retries && a < t.addrFailsAt && r < t.routeFailsAt
  }

  lemma PassingConnects(retries: nat, t: Attempt, workOn: bool, a: nat, r: nat)
    requires t.hostOk && t.inetOk && Passes(retries, t, a, r)
    ensures var o := Connect(retries, t, workOn);
            && (o.ok <==> t.initOk && (workOn || t.recvOk) && t.connectOk)
            && (o.ok ==> o.taken == a + r + 3)
  {
    ResolvesShape(retries, t, a, r);
    ConnectResolved(retries, t, workOn, a, r);
  }

  lemma ConnectedPasses(retries: nat, t: Attempt, workOn: bool) returns (a: nat, r: nat)
    requires Connect(retries, t, workOn).ok
    ensures t.hostOk && t.inetOk && Passes(retries, t, a, r)
  {
    if !ReachesInit(retries, t) {
      ConnectUnresolved(retries, t, workOn);
    }
    a, r :| Resolves(retries, t, a, r);
    ConnectResolved(retries, t, workOn, a, r);
    ResolvesShape(retries, t, a, r);
  }

  /**
   * The connector succeeds exactly when the calls around the loops succeed and the events have the
   * expected shape with fewer errors, in both loops together, than there are retries.
   */
  lemma SucceedsExactly(retries: nat, t: Attempt, workOn: bool)
    ensures Connect(retries, t, workOn).ok <==>
              && t.hostOk && t.inetOk && t.initOk && (workOn || t.recvOk) && t.connectOk
              && exists a: nat, r: nat :: Passes(retries, t, a, r)
  {
    if Connect(retries, t, workOn).ok {
      var a, r := ConnectedPasses(retries, t, workOn);
      PassingConnects(retries, t, workOn, a, r);
    }
    forall a: nat, r: nat | t.hostOk && t.inetOk && Passes(retries, t, a, r)
      ensures Connect(retries, t, workOn).ok <==> t.initOk && (workOn || t.recvOk) && t.connectOk
    {
      PassingConnects(retries, t, workOn, a, r);
    }
  }

  /** On success it has taken exactly the events of the shape. */
  lemma TakesExactlyTheShape(retries: nat, t: Attempt, workOn: bool, a: nat, r: nat)
    requires Connect(retries, t, workOn).ok && Shape(t.replies, a, r)
    ensures Connect(retries, t, workOn).taken == a + r + 3
  {
    var b, q := ConnectedPasses(retries, t, workOn);
    ShapeOnce(t.replies, a, r, b, q);
    PassingConnects(retries, t, workOn, a, r);
  }

  /** Both loops together make at most retries + 1 calls: the second inherits what the first left of the budget. */
  lemma CallsBounded(retries: nat, t: Attempt, workOn: bool)
    ensures Connect(retries, t, workOn).addrCalls + Connect(retries, t, workOn).routeCalls <= retries + 1
    ensures Connect(retries, t, workOn).taken <= |t.replies|
  {
    LeadingIs(AddrError, t.replies);
    var l1 := Resolve(retries, AddrError, AddrResolved, t.replies, t.addrFailsAt);
    if l1.end.Resolved? {
      LeadingIs(RouteError, t.replies[l1.Taken()..]);
    }
  }

  /** The flag work_rdma_cm is left as it was, unless it was off and creating the context failed: then it stays on. */
  lemma FlagRestored(retries: nat, t: Attempt, workOn: bool)
    ensures Connect(retries, t, workOn).workOn <==> workOn || (ReachesInit(retries, t) && !t.initOk)
  {
    if ReachesInit(retries, t) {
      var a: nat, r: nat :| Resolves(retries, t, a, r);
      ConnectResolved(retries, t, workOn, a, r);
    } else {
      ConnectUnresolved(retries, t, workOn);
    }
  }

  /** Such a call, for every number of retries: both answers come at once, then creating the context fails. */
  lemma FlagLost(retries: nat) returns (t: Attempt)
    requires retries > 0
    ensures !Connect(retries, t, false).ok && Connect(retries, t, false).workOn
  {
    t := Attempt(true, true, 1, 1, false, true, true, [Got(AddrResolved), Got(RouteResolved)]);
    assert t.replies[1..] == [Got(RouteResolved)];
    assert Answers(AddrError, AddrResolved, t.replies, 0);
    assert Answers(RouteError, RouteResolved, t.replies[1..], 0);
    assert Resolves(retries, t, 0, 0);
    FlagRestored(retries, t, false);
    ConnectResolved(retries, t, false, 0, 0);
  }

  /** A receive is posted in exactly the calls that create their context with the flag off. */
  lemma ReceivePostedWhenOff(retries: nat, t: Attempt, workOn: bool)
    ensures Connect(retries, t, workOn).recvPosts == if ReachesInit(retries, t) && t.initOk && !workOn then 1 else 0
  {
    if ReachesInit(retries, t) {
      var a: nat, r: nat :| Resolves(retries, t, a, r);
      ConnectResolved(retries, t, workOn, a, r);
    } else {
      ConnectUnresolved(retries, t, workOn);
    }
  }

  /**
   * The connect call is made once, by exactly the calls that create their context and, with the flag off, post
   * their receive; so every success has made one.
   */
  lemma ConnectIssuedOnce(retries: nat, t: Attempt, workOn: bool)
    ensures Connect(retries, t, workOn).connects
         == if ReachesInit(retries, t) && t.initOk && (workOn || t.recvOk) then 1 else 0
    ensures Connect(retries, t, workOn).ok ==> Connect(retries, t, workOn).connects == 1
  {
    if ReachesInit(retries, t) {
      var a: nat, r: nat :| Resolves(retries, t, a, r);
      ConnectResolved(retries, t, workOn, a, r);
    } else {
      ConnectUnresolved(retries, t, workOn);
    }
  }

  /** With both loops resolved: a call for each error and each answer, and the events up to the last one taken. */
  lemma CountsWhenResolved(retries: nat, t: Attempt, workOn: bool, a: nat, r: nat)
    requires t.hostOk && t.inetOk && Resolves(retries, t, a, r)
    ensures var o := Connect(retries, t, workOn);
            var waits := t.initOk && (workOn || t.recvOk) && t.connectOk;
            && o.addrCalls == a + 1 && o.routeCalls == r + 1
            && o.taken == a + r + 2
                          + if waits && a + r + 2 < |t.replies| && t.replies[a + r + 2].Got? then 1 else 0
  {
    ConnectResolved(retries, t, workOn, a, r);
  }

  /** A host or an address that cannot be used: nothing is called and nothing taken. */
  lemma NothingWithoutHost(retries: nat, t: Attempt, workOn: bool)
    requires !t.hostOk || !t.inetOk
    ensures var o := Connect(retries, t, workOn);
            !o.ok && o.taken == o.addrCalls == o.routeCalls == o.recvPosts == o.connects == 0 && o.workOn == workOn
  {
  }

  /** With m address errors in front: the calls of the first loop, and no route call unless the address came. */
  lemma CountsOfAddress(retries: nat, t: Attempt, workOn: bool, m: nat)
    requires t.hostOk && t.inetOk && Leads(AddrError, t.replies, m)
    ensures var o := Connect(retries, t, workOn);
            var last := m < retries && m < t.addrFailsAt && m < |t.replies|;
            && o.addrCalls == Min(retries, Min(t.addrFailsAt, m) + 1)
            && (!(last && t.replies[m] == Got(AddrResolved)) ==>
                  o.routeCalls == 0
                  && o.taken == Min(retries, Min(t.addrFailsAt, m)) + if last && t.replies[m].Got? then 1 else 0)
  {
    LoopExactly(retries, AddrError, AddrResolved, t.replies, t.addrFailsAt, m);
  }

  /** With the address after m errors, the route loop decides the calls, and the events unless it resolves too. */
  lemma RouteLoopCounts(retries: nat, t: Attempt, workOn: bool, m: nat)
    requires t.hostOk && t.inetOk && m < |t.replies| && m <= retries
    requires Resolve(retries, AddrError, AddrResolved, t.replies, t.addrFailsAt) == Loop(Resolved, m)
    ensures var o := Connect(retries, t, workOn);
            var l := Resolve(retries - m, RouteError, RouteResolved, t.replies[m + 1..], t.routeFailsAt);
            o.routeCalls == l.Calls() && (!l.end.Resolved? ==> o.taken == m + 1 + l.Taken())
  {
  }

  /** With m address errors, the address and then q route errors: the second loop, on what is left of the budget. */
  lemma CountsOfRoute(retries: nat, t: Attempt, workOn: bool, m: nat, q: nat)
    requires t.hostOk && t.inetOk && m < retries && m < t.addrFailsAt
    requires Leads(AddrError, t.replies, m) && m < |t.replies| && t.replies[m] == Got(AddrResolved)
    requires Leads(RouteError, t.replies[m + 1..], q)
    ensures var o := Connect(retries, t, workOn); var left := retries - m; var tail := t.replies[m + 1..];
            var last := q < left && q < t.routeFailsAt && q < |tail|;
            && o.routeCalls == Min(left, Min(t.routeFailsAt, q) + 1)
            && (!(last && tail[q] == Got(RouteResolved)) ==>
                  o.taken == m + 1 + Min(left, Min(t.routeFailsAt, q)) + if last && tail[q].Got? then 1 else 0)
  {
    ResolveIff(retries, AddrError, AddrResolved, t.replies, t.addrFailsAt, m);
    RouteLoopCounts(retries, t, workOn, m);
    LoopExactly(retries - m, RouteError, RouteResolved, t.replies[m + 1..], t.routeFailsAt, q);
  }

  /** The bound on calls is reached: the address resolves at once and every route call ends in an error. */
  lemma CallBoundReached(retries: nat) returns (t: Attempt)
    requires retries > 0
    ensures Connect(retries, t, false).addrCalls + Connect(retries, t, false).routeCalls == retries + 1
  {
    var errors := seq(retries, _ => Got(RouteError));
    t := Attempt(true, true, 1, retries, true, true, true, [Got(AddrResolved)] + errors);
    assert t.replies[1..] == errors;
    LeadingIs(RouteError, errors);
    LeadingIs(AddrError, t.replies);
  }

  /** The state the connector changes: the flag, its event channel, and counts of what it did. */
  class Session {
    const retries: nat  // NUM_OF_RETRIES
    var workOn: bool    // user_param->work_rdma_cm
    var replies: seq<Reply>
    var taken: nat
    var acked: nat
    var addrCalls: nat
    var routeCalls: nat
    var recvPosts: nat
    var connects: nat

    constructor (retries: nat, workOn: bool)
      ensures this.retries == retries && this.workOn == workOn && replies == []
      ensures taken == acked == addrCalls == routeCalls == recvPosts == connects == 0
    {
      this.retries, this.workOn, replies := retries, workOn, [];
      taken, acked, addrCalls, routeCalls, recvPosts, connects := 0, 0, 0, 0, 0, 0;
    }

    /** `rdma_get_cm_event` */
    method GetEvent() returns (r: Reply)
      modifies this`replies, this`taken
      ensures r == if old(replies) == [] then GetFails else old(replies)[0]
      ensures replies == if old(replies) == [] then [] else old(replies)[1..]
      ensures taken == old(taken) + (if r.Got? then 1 else 0)
    {
      if replies == [] {
        return GetFails;
      }
      r := replies[0];
      replies := replies[1..];
      if r.Got? {
        taken := taken + 1;
      }
    }

    /** `rdma_ack_cm_event`, for an event taken and not acknowledged yet. */
    method Ack()
      requires acked < taken
      modifies this`acked
      ensures acked == old(acked) + 1
    {
      acked := acked + 1;
    }

    /** The loop over `rdma_resolve_addr`. */
    method ResolveAddr(failsAt: nat) returns (ok: bool, left: int)
      requires acked == taken
      modifies this`replies, this`taken, this`acked, this`addrCalls
      ensures var l := Resolve(retries, AddrError, AddrResolved, old(replies), failsAt);
              && ok == l.end.Resolved? && left == retries - l.errors
              && acked == taken == old(taken) + l.Taken() && addrCalls == old(addrCalls) + l.Calls()
              && (ok ==> l.Taken() <= |old(replies)| && replies == old(replies)[l.Taken()..])
    {
      LeadingIs(AddrError, replies);
      ok, left := false, retries;
      var calls := 0;
      while true
        invariant 0 <= left <= retries && calls == retries - left <= failsAt
        invariant calls <= Leading(AddrError, old(replies)) && replies == old(replies)[calls..]
        invariant acked == taken == old(taken) + calls && addrCalls == old(addrCalls) + calls
        decreases left
      {
        if left == 0 {
          return;
        }
        var fails := calls == failsAt;
        calls, addrCalls := calls + 1, addrCalls + 1;
        if fails {
          return;
        }
        var event := GetEvent();
        if event == GetFails {
          return;
        }
        if event == Got(AddrError) {
          left := left - 1;
          Ack();
          continue;
        }
        if event != Got(AddrResolved) {
          Ack();
          return;
        }
        Ack();
        ok := true;
        break;
      }
    }

    /** The loop over `rdma_resolve_route`, with what the first loop left of the budget. */
    method ResolveRoute(budget: nat, failsAt: nat) returns (ok: bool)
      requires acked == taken
      modifies this`replies, this`taken, this`acked, this`routeCalls
      ensures var l := Resolve(budget, RouteError, RouteResolved, old(replies), failsAt);
              && ok == l.end.Resolved?
              && acked == taken == old(taken) + l.Taken() && routeCalls == old(routeCalls) + l.Calls()
              && (ok ==> l.Taken() <= |old(replies)| && replies == old(replies)[l.Taken()..])
    {
      LeadingIs(RouteError, replies);
      ok := false;
      var left: int := budget;
      var calls := 0;
      while true
        invariant 0 <= left <= budget && calls == budget - left <= failsAt
        invariant calls <= Leading(RouteError, old(replies)) && replies == old(replies)[calls..]
        invariant acked == taken == old(taken) + calls && routeCalls == old(routeCalls) + calls
        decreases left
      {
        if left <= 0 {
          return;
        }
        var fails := calls == failsAt;
        calls, routeCalls := calls + 1, routeCalls + 1;
        if fails {
          return;
        }
        var event := GetEvent();
        if event == GetFails {
          return;
        }
        if event == Got(RouteError) {
          left := left - 1;
          Ack();
          continue;
        }
        if event != Got(RouteResolved) {
          Ack();
          return;
        }
        Ack();
        ok := true;
        break;
      }
    }

    method ResolveBoth(t: Attempt) returns (ok: bool)
      requires acked == taken && replies == t.replies
      modifies this`replies, this`taken, this`acked, this`addrCalls, this`routeCalls
      ensures var (resolved, o) := Loops(retries, t, workOn);
              && ok == resolved && acked == taken == old(taken) + o.taken
              && addrCalls == old(addrCalls) + o.addrCalls && routeCalls == old(routeCalls) + o.routeCalls
              && (ok ==> o.taken <= |t.replies| && replies == t.replies[o.taken..])
    {
      var left;
      ok, left := ResolveAddr(t.addrFailsAt);
      if ok {
        ok := ResolveRoute(left, t.routeFailsAt);
      }
    }

    /** The call from the creation of the context on. */
    method Establish(t: Attempt, ghost o: Outcome) returns (ok: bool)
      requires acked == taken && !o.ok && workOn == o.workOn && o.recvPosts == o.connects == 0
      requires o.taken <= |t.replies| && replies == t.replies[o.taken..]
      modifies this`workOn, this`replies, this`taken, this`acked, this`recvPosts, this`connects
      ensures var e := Finish(t, o);
              && ok == e.ok && workOn == e.workOn
              && acked == taken == old(taken) + e.taken - o.taken
              && recvPosts == old(recvPosts) + e.recvPosts && connects == old(connects) + e.connects
    {
      var temp := workOn;
      workOn := true;
      if !t.initOk {
        return false;
      }
      workOn := temp;
      if !workOn {
        recvPosts := recvPosts + 1;
        if !t.recvOk {
          return false;
        }
      }
      connects := connects + 1;
      if !t.connectOk {
        return false;
      }
      var event := GetEvent();
      if event == GetFails {
        return false;
      }
      if event != Got(Established) {
        Ack();
        return false;
      }
      Ack();
      ok := true;
    }

    /** `rdma_client_connect`: on every return each event taken has been acknowledged once. */
    method ClientConnect(t: Attempt) returns (ok: bool)
      requires acked == taken && replies == t.replies
      modifies this`workOn, this`replies, this`taken, this`acked, this`addrCalls, this`routeCalls,
               this`recvPosts, this`connects
      ensures var o := Connect(retries, t, old(workOn));
              && ok == o.ok && workOn == o.workOn && acked == taken == old(taken) + o.taken
              && addrCalls == old(addrCalls) + o.addrCalls && routeCalls == old(routeCalls) + o.routeCalls
              && recvPosts == old(recvPosts) + o.recvPosts && connects == old(connects) + o.connects
    {
      if !t.hostOk {
        return false;
      }
      if !t.inetOk {
        return false;
      }
      ghost var o := Loops(retries, t, workOn).1;
      ok := ResolveBoth(t);
      if !ok {
        return;
      }
      ok := Establish(t, o);
    }
  }
}
