/**
 * The ledger of one client connection: every call that obtains, gives up or uses a foreign
 * object, in the order made. `Replay` says which histories are lawful: an object is created
 * only when it is not live already and what it needs is live, and destroyed only while live
 * and while no live object refers to it; events are taken one at a time and acknowledged once.
 */
module Ledger {
  import opened Base

  datatype Handle = CmId | Context | Pd | SendCq | RecvCq | Qp(i: nat) | Buf(i: nat) | Mr(i: nat)

  datatype Kind = AddrResolved | RouteResolved | Established | AddrError | RouteError | ConnectError
                | Unreachable | Rejected | Disconnected | Unhandled

  datatype Event = Event(kind: Kind, id: nat)

  datatype Op = Create(h: Handle) | Destroy(h: Handle) | Get(e: Event) | Ack
              | ResolveAddr | ResolveRoute | Connect | Disconnect | MarkConnected(id: nat)

  /** What must be live to create h. */
  function Needs(h: Handle): set<Handle>
  {
    match h
    case CmId => {}
    case Context => {}
    case Pd => {Context}
    case SendCq => {Context}
    case RecvCq => {Context}
    case Qp(_) => {CmId, Pd, SendCq}
    case Buf(_) => {}
    case Mr(i) => {Pd, Buf(i)}
  }

  /** A live h keeps d from being destroyed. A queue pair also holds the receive queue, when there is one. */
  predicate Uses(h: Handle, d: Handle)
  {
    match h
    case CmId => false
    case Context => false
    case Pd => d == Context
    case SendCq => d == Context
    case RecvCq => d == Context
    case Qp(_) => d == CmId || d == Pd || d == SendCq || d == RecvCq
    case Buf(_) => false
    case Mr(i) => d == Pd || d == Buf(i)
  }

  datatype Account = Account(live: set<Handle>, unacked: nat)

  ghost function Apply(a: Account, op: Op): Option<Account>
  {
    match op
    case Create(h) =>
      if h !in a.live && Needs(h) <= a.live then Some(a.(live := a.live + {h})) else None
    case Destroy(h) =>
      if h in a.live && (forall u | u in a.live :: !Uses(u, h)) then Some(a.(live := a.live - {h})) else None
    case Get(_) => if a.unacked == 0 then Some(a.(unacked := 1)) else None
    case Ack => if a.unacked > 0 then Some(a.(unacked := a.unacked - 1)) else None
    case MarkConnected(_) => Some(a)
    case _ => if CmId in a.live then Some(a) else None  // calls on the connection id need a live id
  }

  /** The account after a history, or None if some operation in it was unlawful. */
  ghost function Replay(a: Account, ops: seq<Op>): Option<Account>
    decreases |ops|
  {
    if ops == [] then Some(a)
    else
      match Apply(a, ops[0])
      case None => None
      case Some(b) => Replay(b, ops[1..])
  }

  lemma {:induction false} ReplayConcat(a: Account, x: seq<Op>, y: seq<Op>)
    ensures Replay(a, x + y) == match Replay(a, x) { case None => None case Some(b) => Replay(b, y) }
    decreases |x|
  {
    if x == [] {
      assert x + y == y;
    } else {
      assert (x + y)[0] == x[0] && (x + y)[1..] == x[1..] + y;
      match Apply(a, x[0])
      case None =>
      case Some(b) => ReplayConcat(b, x[1..], y);
    }
  }

  lemma ReplayOne(a: Account, op: Op)
    ensures Replay(a, [op]) == Apply(a, op)
  {
    assert [op][1..] == [];
  }

  function Elements(hs: seq<Handle>): set<Handle>
  {
    set h | h in hs
  }

  /** Creating each of hs in turn. */
  function Creates(hs: seq<Handle>): (ops: seq<Op>)
    ensures |ops| == |hs| && forall k | 0 <= k < |hs| :: ops[k] == Create(hs[k])
  {
    seq(|hs|, k requires 0 <= k < |hs| => Create(hs[k]))
  }

  /** Destroying, in the given order, those that are held. */
  function Releases(order: seq<Handle>, held: set<Handle>): seq<Op>
    decreases |order|
  {
    if order == [] then []
    else (if order[0] in held then [Destroy(order[0])] else []) + Releases(order[1..], held - {order[0]})
  }

  lemma {:induction false} ReleasesConcat(x: seq<Handle>, y: seq<Handle>, held: set<Handle>)
    ensures Releases(x + y, held) == Releases(x, held) + Releases(y, held - Elements(x))
    decreases |x|
  {
    if x == [] {
      assert x + y == y && held - Elements(x) == held;
    } else {
      assert x == [x[0]] + x[1..];
      assert (x + y)[0] == x[0] && (x + y)[1..] == x[1..] + y;
      assert held - {x[0]} - Elements(x[1..]) == held - Elements(x);
      ReleasesConcat(x[1..], y, held - {x[0]});
    }
  }

  lemma ReleasesOne(h: Handle, held: set<Handle>)
    ensures Releases([h], held) == if h in held then [Destroy(h)] else []
  {
    assert [h][1..] == [];
  }

  // ---- what a lawful history guarantees ----

  /** Times an object was created, less the times it was destroyed. */
  function Standing(ops: seq<Op>, h: Handle): int
  {
    multiset(ops)[Create(h)] as int - multiset(ops)[Destroy(h)] as int
  }

  lemma OneCounts(ops: seq<Op>, op: Op)
    requires ops != []
    ensures multiset(ops)[op] == multiset(ops[1..])[op] + if ops[0] == op then 1 else 0
  {
    assert ops == [ops[0]] + ops[1..];
    assert multiset(ops) == multiset{ops[0]} + multiset(ops[1..]);
  }

  /** An object is live exactly when it has been created once more than destroyed. */
  lemma {:induction false} LiveIsCounted(a: Account, ops: seq<Op>, h: Handle)
    requires Replay(a, ops).Some?
    ensures Standing(ops, h)
         == (if h in Replay(a, ops).value.live then 1 else 0) - (if h in a.live then 1 else 0)
    decreases |ops|
  {
    if ops != [] {
      LiveIsCounted(Apply(a, ops[0]).value, ops[1..], h);
      OneCounts(ops, Create(h));
      OneCounts(ops, Destroy(h));
    }
  }

  /** Each operation of a lawful history finds the account of the operations before it, and is lawful there. */
  lemma LawfulAt(a: Account, ops: seq<Op>, k: nat)
    requires Replay(a, ops).Some? && k < |ops|
    ensures Replay(a, ops[..k]).Some? && Apply(Replay(a, ops[..k]).value, ops[k]).Some?
  {
    assert ops == ops[..k] + ops[k..];
    ReplayConcat(a, ops[..k], ops[k..]);
  }

  /** What is destroyed is there, and every object made with it is gone. */
  lemma DestroyedAfterUsers(ops: seq<Op>, k: nat, d: Handle, u: Handle)
    requires Replay(Account({}, 0), ops).Some? && k < |ops| && ops[k] == Destroy(d)
    requires || (u.Qp? && (d == CmId || d == Pd || d == SendCq || d == RecvCq))
             || (u.Mr? && (d == Pd || d == Buf(u.i)))
             || ((u == Pd || u == SendCq || u == RecvCq) && d == Context)
    ensures Standing(ops[..k], d) == 1 && Standing(ops[..k], u) == 0
  {
    LawfulAt(Account({}, 0), ops, k);
    LiveIsCounted(Account({}, 0), ops[..k], d);
    LiveIsCounted(Account({}, 0), ops[..k], u);
  }

  /** What is created is not there yet, and every object it is made with is. */
  lemma CreatedAfterNeeds(ops: seq<Op>, k: nat, u: Handle, d: Handle)
    requires Replay(Account({}, 0), ops).Some? && k < |ops| && ops[k] == Create(u)
    requires || (u.Qp? && (d == CmId || d == Pd || d == SendCq))
             || (u.Mr? && (d == Pd || d == Buf(u.i)))
             || ((u == Pd || u == SendCq || u == RecvCq) && d == Context)
    ensures Standing(ops[..k], u) == 0 && Standing(ops[..k], d) == 1
  {
    LawfulAt(Account({}, 0), ops, k);
    LiveIsCounted(Account({}, 0), ops[..k], u);
    LiveIsCounted(Account({}, 0), ops[..k], d);
  }

  /** Every call on the connection id finds it there. */
  lemma CalledOnLiveId(ops: seq<Op>, k: nat)
    requires Replay(Account({}, 0), ops).Some? && k < |ops|
    requires ops[k].ResolveAddr? || ops[k].ResolveRoute? || ops[k].Connect? || ops[k].Disconnect?
    ensures Standing(ops[..k], CmId) == 1
  {
    LawfulAt(Account({}, 0), ops, k);
    LiveIsCounted(Account({}, 0), ops[..k], CmId);
  }

  // ---- lawful orders ----

  /** No handle of the order has a live user when its turn comes. */
  ghost predicate CanRelease(live: set<Handle>, order: seq<Handle>)
    decreases |order|
  {
    order == [] || ((forall u | u in live :: !Uses(u, order[0])) && CanRelease(live - {order[0]}, order[1..]))
  }

  lemma {:induction false} CanReleaseConcat(live: set<Handle>, x: seq<Handle>, y: seq<Handle>)
    requires CanRelease(live, x) && CanRelease(live - Elements(x), y)
    ensures CanRelease(live, x + y)
    decreases |x|
  {
    if x == [] {
      assert x + y == y && live - Elements(x) == live;
    } else {
      assert x == [x[0]] + x[1..];
      assert (x + y)[0] == x[0] && (x + y)[1..] == x[1..] + y;
      assert live - {x[0]} - Elements(x[1..]) == live - Elements(x);
      CanReleaseConcat(live - {x[0]}, x[1..], y);
    }
  }

  /** Releasing so is lawful and takes away exactly the handles of the order. */
  lemma {:induction false} ReleasesLawful(a: Account, order: seq<Handle>)
    requires CanRelease(a.live, order)
    ensures Replay(a, Releases(order, a.live)) == Some(a.(live := a.live - Elements(order)))
    decreases |order|
  {
    if order == [] {
      assert a.live - Elements(order) == a.live;
    } else {
      var h, rest := order[0], order[1..];
      assert order == [h] + rest;
      var b := a.(live := a.live - {h});
      var first := if h in a.live then [Destroy(h)] else [];
      ReplayOne(a, Destroy(h));
      assert h !in a.live ==> b == a;
      ReplayConcat(a, first, Releases(rest, b.live));
      ReleasesLawful(b, rest);
      assert b.live - Elements(rest) == a.live - Elements(order);
    }
  }

  /** Each of hs in turn is new and finds what it needs live. */
  ghost predicate CanCreate(live: set<Handle>, hs: seq<Handle>)
    decreases |hs|
  {
    hs == [] || (hs[0] !in live && Needs(hs[0]) <= live && CanCreate(live + {hs[0]}, hs[1..]))
  }

  lemma {:induction false} CreatesLawful(a: Account, hs: seq<Handle>)
    requires CanCreate(a.live, hs)
    ensures Replay(a, Creates(hs)) == Some(a.(live := a.live + Elements(hs)))
    decreases |hs|
  {
    if hs == [] {
      assert a.live + Elements(hs) == a.live;
    } else {
      assert hs == [hs[0]] + hs[1..];
      var b := a.(live := a.live + {hs[0]});
      assert Creates(hs)[1..] == Creates(hs[1..]);
      CreatesLawful(b, hs[1..]);
      assert b.live + Elements(hs[1..]) == a.live + Elements(hs);
    }
  }

  lemma {:induction false} CanCreateConcat(live: set<Handle>, x: seq<Handle>, y: seq<Handle>)
    requires CanCreate(live, x) && CanCreate(live + Elements(x), y)
    ensures CanCreate(live, x + y)
    decreases |x|
  {
    if x == [] {
      assert x + y == y && live + Elements(x) == live;
    } else {
      assert x == [x[0]] + x[1..];
      assert (x + y)[0] == x[0] && (x + y)[1..] == x[1..] + y;
      assert live + {x[0]} + Elements(x[1..]) == live + Elements(x);
      CanCreateConcat(live + {x[0]}, x[1..], y);
    }
  }

  /** What is created finds its needs among the live and the created. */
  lemma {:induction false} CreatedHaveNeeds(live: set<Handle>, hs: seq<Handle>)
    requires CanCreate(live, hs)
    ensures forall h | h in hs :: Needs(h) <= live + Elements(hs)
    decreases |hs|
  {
    if hs != [] {
      assert hs == [hs[0]] + hs[1..];
      CreatedHaveNeeds(live + {hs[0]}, hs[1..]);
    }
  }
}
