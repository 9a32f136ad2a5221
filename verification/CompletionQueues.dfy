/**
 * The two completion queues shared by all queue pairs: how deep they are made, and whether
 * the completions of any run of posts, completions and polls fit into them.
 */
module CompletionQueues {
  import opened Base

  const DEFAULT_BUF_DEPTH: int := 4096

  /** The depth passed to both `ibv_create_cq` calls, in `int` arithmetic. */
  function CqeCount(qpCount: nat, maxCqe: int): int
  {
    var cqe := Int32(DEFAULT_BUF_DEPTH * qpCount);
    if cqe > maxCqe then maxCqe else cqe
  }

  /** The product is exact up to 524287 queue pairs, and never large enough beyond. */
  lemma ProductFits(qpCount: nat)
    ensures Int32(DEFAULT_BUF_DEPTH * qpCount) == DEFAULT_BUF_DEPTH * qpCount <==> qpCount <= 524287
    ensures Int32(DEFAULT_BUF_DEPTH * qpCount) >= DEFAULT_BUF_DEPTH * qpCount <==> qpCount <= 524287
  {
  }

  /** One direction: requests posted and not completed per queue pair, and the queue of completions by queue pair. */
  datatype Side = Side(inFlight: seq<nat>, cq: seq<nat>)

  datatype State = State(send: Side, recv: Side)

  datatype Action = Post(q: nat) | Complete(q: nat) | Poll
  datatype Step = OnSend(a: Action) | OnRecv(a: Action)

  function CountOf(cq: seq<nat>, q: nat): nat
  {
    if cq == [] then 0 else CountOf(cq[1..], q) + if cq[0] == q then 1 else 0
  }

  /**
   * A request takes one of the DEFAULT_BUF_DEPTH places of its queue from its post until its completion is
   * polled.
   */
  function Act(s: Side, a: Action): Option<Side>
  {
    match a
    case Post(q) =>
      if q < |s.inFlight| && s.inFlight[q] + CountOf(s.cq, q) < DEFAULT_BUF_DEPTH
      then Some(s.(inFlight := s.inFlight[q := s.inFlight[q] + 1])) else None
    case Complete(q) =>
      if q < |s.inFlight| && s.inFlight[q] > 0
      then Some(Side(s.inFlight[q := s.inFlight[q] - 1], s.cq + [q])) else None
    case Poll =>
      if s.cq != [] then Some(s.(cq := s.cq[1..])) else None
  }

  function Next(s: State, step: Step): Option<State>
  {
    match step
    case OnSend(a) => (match Act(s.send, a) case None => None case Some(t) => Some(s.(send := t)))
    case OnRecv(a) => (match Act(s.recv, a) case None => None case Some(t) => Some(s.(recv := t)))
  }

  function Exec(s: State, steps: seq<Step>): Option<State>
    decreases |steps|
  {
    if steps == [] then Some(s)
    else match Next(s, steps[0]) case None => None case Some(t) => Exec(t, steps[1..])
  }

  function Zeros(n: nat): seq<nat>
  {
    seq(n, _ => 0)
  }

  function Init(n: nat): State
  {
    State(Side(Zeros(n), []), Side(Zeros(n), []))
  }

  ghost predicate SideInv(n: nat, s: Side)
  {
    && |s.inFlight| == n
    && (forall i | 0 <= i < |s.cq| :: s.cq[i] < n)
    && (forall q | 0 <= q < n :: s.inFlight[q] + CountOf(s.cq, q) <= DEFAULT_BUF_DEPTH)
  }

  lemma {:induction false} CountSnoc(cq: seq<nat>, x: nat, q: nat)
    ensures CountOf(cq + [x], q) == CountOf(cq, q) + if x == q then 1 else 0
    decreases |cq|
  {
    if cq == [] {
      assert [x][1..] == [];
    } else {
      assert (cq + [x])[1..] == cq[1..] + [x];
      CountSnoc(cq[1..], x, q);
    }
  }

  lemma SideStep(n: nat, s: Side, a: Action)
    requires SideInv(n, s) && Act(s, a).Some?
    ensures SideInv(n, Act(s, a).value)
  {
    match a
    case Post(_) =>
    case Complete(x) =>
      forall q | 0 <= q < n ensures CountOf(s.cq + [x], q) == CountOf(s.cq, q) + if x == q then 1 else 0 {
        CountSnoc(s.cq, x, q);
      }
    case Poll =>
  }

  lemma {:induction false} RunInv(n: nat, s: State, steps: seq<Step>)
    requires SideInv(n, s.send) && SideInv(n, s.recv) && Exec(s, steps).Some?
    ensures var t := Exec(s, steps).value; SideInv(n, t.send) && SideInv(n, t.recv)
    decreases |steps|
  {
    if steps != [] {
      match steps[0]
      case OnSend(a) => SideStep(n, s.send, a); RunInv(n, Next(s, steps[0]).value, steps[1..]);
      case OnRecv(a) => SideStep(n, s.recv, a); RunInv(n, Next(s, steps[0]).value, steps[1..]);
    }
  }

  /** Completions of the first n queue pairs. */
  function CountBelow(cq: seq<nat>, n: nat): nat
  {
    if n == 0 then 0 else CountBelow(cq, n - 1) + CountOf(cq, n - 1)
  }

  lemma {:induction false} CountBelowCons(cq: seq<nat>, n: nat)
    requires cq != []
    ensures CountBelow(cq, n) == CountBelow(cq[1..], n) + if cq[0] < n then 1 else 0
    decreases n
  {
    if n > 0 { CountBelowCons(cq, n - 1); }
  }

  lemma {:induction false} CountBelowEmpty(n: nat)
    ensures CountBelow([], n) == 0
    decreases n
  {
    if n > 0 { CountBelowEmpty(n - 1); }
  }

  lemma {:induction false} LengthIsCount(cq: seq<nat>, n: nat)
    requires forall i | 0 <= i < |cq| :: cq[i] < n
    ensures |cq| == CountBelow(cq, n)
    decreases |cq|
  {
    if cq == [] {
      CountBelowEmpty(n);
    } else {
      CountBelowCons(cq, n);
      LengthIsCount(cq[1..], n);
    }
  }

  lemma {:induction false} CountBelowBound(cq: seq<nat>, n: nat)
    requires forall q | 0 <= q < n :: CountOf(cq, q) <= DEFAULT_BUF_DEPTH
    ensures CountBelow(cq, n) <= DEFAULT_BUF_DEPTH * n
    decreases n
  {
    if n > 0 { CountBelowBound(cq, n - 1); }
  }

  lemma SideFits(n: nat, s: Side)
    requires SideInv(n, s)
    ensures |s.cq| <= DEFAULT_BUF_DEPTH * n
  {
    LengthIsCount(s.cq, n);
    CountBelowBound(s.cq, n);
  }

  /** Fills the send queue: DEFAULT_BUF_DEPTH posts and completions on each queue pair below q, and k on q. */
  function Fill(q: nat, k: nat): seq<Step>
    decreases q, k
  {
    if k > 0 then Fill(q, k - 1) + [OnSend(Post(q)), OnSend(Complete(q))]
    else if q > 0 then Fill(q - 1, DEFAULT_BUF_DEPTH)
    else []
  }

  lemma {:induction false} ExecConcat(s: State, a: seq<Step>, b: seq<Step>)
    requires Exec(s, a).Some?
    ensures Exec(s, a + b) == Exec(Exec(s, a).value, b)
    decreases |a|
  {
    if a == [] {
      assert a + b == b;
    } else {
      assert (a + b)[0] == a[0] && (a + b)[1..] == a[1..] + b;
      ExecConcat(Next(s, a[0]).value, a[1..], b);
    }
  }

  /** After filling: nothing in flight, q full queue pairs and k completions of the next in the queue. */
  ghost predicate Filled(n: nat, s: State, q: nat, k: nat)
  {
    && s.send.inFlight == Zeros(n) && s.recv == Side(Zeros(n), [])
    && |s.send.cq| == DEFAULT_BUF_DEPTH * q + k
    && (forall p: nat | p >= q :: CountOf(s.send.cq, p) == if p == q then k else 0)
  }

  lemma {:induction false} FillRuns(n: nat, q: nat, k: nat)
    requires q < n || (q == n && k == 0)
    requires k <= DEFAULT_BUF_DEPTH
    ensures Exec(Init(n), Fill(q, k)).Some? && Filled(n, Exec(Init(n), Fill(q, k)).value, q, k)
    decreases q, k
  {
    if k > 0 {
      FillRuns(n, q, k - 1);
      var s := Exec(Init(n), Fill(q, k - 1)).value;
      PostAndComplete(n, s, q, k - 1);
      ExecConcat(Init(n), Fill(q, k - 1), [OnSend(Post(q)), OnSend(Complete(q))]);
    } else if q > 0 {
      FillRuns(n, q - 1, DEFAULT_BUF_DEPTH);
    }
  }

  lemma PostAndComplete(n: nat, s: State, q: nat, k: nat)
    requires q < n && k < DEFAULT_BUF_DEPTH && Filled(n, s, q, k)
    ensures var r := Exec(s, [OnSend(Post(q)), OnSend(Complete(q))]);
            r.Some? && Filled(n, r.value, q, k + 1)
  {
    var steps := [OnSend(Post(q)), OnSend(Complete(q))];
    assert steps[1..] == [OnSend(Complete(q))] && steps[1..][1..] == [];
    assert CountOf(s.send.cq, q) == k;
    var s1 := Next(s, OnSend(Post(q))).value;
    var s2 := Next(s1, OnSend(Complete(q))).value;
    assert Exec(s1, steps[1..]) == Exec(s2, []);
    assert s2.send.inFlight == Zeros(n);
    forall p: nat | p >= q ensures CountOf(s2.send.cq, p) == if p == q then k + 1 else 0 {
      CountSnoc(s.send.cq, q, p);
    }
  }

  /** In every run both queues stay within cap. */
  ghost predicate NeverOverflows(n: nat, cap: int)
  {
    forall steps: seq<Step> | Exec(Init(n), steps).Some? ::
      var s := Exec(Init(n), steps).value; |s.send.cq| <= cap && |s.recv.cq| <= cap
  }

  lemma CapacityNeeded(n: nat, cap: int)
    ensures NeverOverflows(n, cap) <==> DEFAULT_BUF_DEPTH * n <= cap
  {
    if DEFAULT_BUF_DEPTH * n <= cap {
      forall steps: seq<Step> | Exec(Init(n), steps).Some?
        ensures var s := Exec(Init(n), steps).value; |s.send.cq| <= cap && |s.recv.cq| <= cap
      {
        RunInv(n, Init(n), steps);
        var s := Exec(Init(n), steps).value;
        SideFits(n, s.send);
        SideFits(n, s.recv);
      }
    } else {
      FillRuns(n, n, 0);
      assert Exec(Init(n), Fill(n, 0)).Some?;
    }
  }

  /** The depth is what is asked for or, if that is less, what the device grants; what is asked for wraps at 2^20. */
  lemma DepthExactly(qpCount: nat, maxCqe: int)
    ensures var r := qpCount % 0x10_0000;
            var asked := if r < 0x8_0000 then 4096 * r else 4096 * r - 0x1_0000_0000;
            CqeCount(qpCount, maxCqe) == if asked <= maxCqe then asked else maxCqe
  {
    var k, r := qpCount / 0x10_0000, qpCount % 0x10_0000;
    assert DEFAULT_BUF_DEPTH * qpCount == TWO_32 * k + DEFAULT_BUF_DEPTH * r;
    WrapAway(k, DEFAULT_BUF_DEPTH * r);
  }

  /** The product wraps with the period 2^20 of queue pairs; no queue is made of a depth that is not positive. */
  lemma DepthPositive(qpCount: nat, maxCqe: int)
    ensures CqeCount(qpCount, maxCqe) > 0 <==> maxCqe > 0 && 0 < qpCount % 0x10_0000 < 0x8_0000
  {
    DepthExactly(qpCount, maxCqe);
  }

  lemma WrapAway(k: nat, x: nat)
    requires x < TWO_32
    ensures (TWO_32 * k + x) % TWO_32 == x
  {
  }

  /** The creation of the queues is refused, or no run overflows them. */
  ghost predicate QueuesSafe(qpCount: nat, maxCqe: int)
  {
    CqeCount(qpCount, maxCqe) <= 0 || NeverOverflows(qpCount, CqeCount(qpCount, maxCqe))
  }

  /**
   * Queues of the depth the code asks for are never overflowed exactly when the product fits an int and the
   * device grants it; where the depth is not positive there are no queues.
   */
  lemma QueuesNeverOverflow(qpCount: nat, maxCqe: int)
    ensures QueuesSafe(qpCount, maxCqe) <==>
              || maxCqe <= 0 || qpCount % 0x10_0000 == 0 || qpCount % 0x10_0000 >= 0x8_0000
              || (qpCount <= 524287 && DEFAULT_BUF_DEPTH * qpCount <= maxCqe)
  {
    DepthPositive(qpCount, maxCqe);
    CapacityNeeded(qpCount, CqeCount(qpCount, maxCqe));
    ProductFits(qpCount);
  }

  /** The default of one queue pair, on a device that grants less than 4096: a run with more completions than places. */
  lemma OverflowHappens(maxCqe: int) returns (steps: seq<Step>)
    requires 0 < maxCqe < DEFAULT_BUF_DEPTH
    ensures CqeCount(1, maxCqe) == maxCqe && Exec(Init(1), steps).Some?
    ensures |Exec(Init(1), steps).value.send.cq| > maxCqe
  {
    steps := Fill(1, 0);
    FillRuns(1, 1, 0);
  }
}
