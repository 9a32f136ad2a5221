/**
 * The read poster and the device as interleaved steps. The poster takes references, posts,
 * and on failure counts and gives references back; the device accepts requests one by one while
 * the post call runs and completes accepted reads in any order at any time from then on. A
 * completion writes its slice and drops one reference. Until then a slice may hold anything.
 */
module ReadSteps {
  import opened Base
  import opened ReadList
  import opened ReadPoster

  datatype Job = Job(segs: seq<Chunk>, addr: nat, lkeys: seq<u32>, postId: int, remote: Remote,
                     callerRefs: nat, before: seq<byte>)

  /** Where the poster stands: i requests built, k accepted so far, i requests compared with bad_wr, and so on. */
  datatype Pc = Building(i: nat) | Posting(k: nat) | Counting(i: nat, bad: nat) | GivingBack | Returned(ret: int)

  datatype State = State(pc: Pc, totalRef: int, accepted: nat, outstanding: set<nat>, refs: int, mem: seq<byte>)

  datatype Step = TakeRef | RegisterFails | StartPost | Accept | PostSucceeds | PostRefuses | PostFailsWithoutBad
                | SkipAccepted | FoundBad | GiveBack | Return
                | DmaWrites(j: nat, junk: seq<byte>) | Complete(j: nat)

  ghost predicate WellFormed(job: Job)
  {
    0 < |job.segs| <= |job.lkeys| && |job.before| == Total(job.segs)
  }

  ghost function Init(job: Job): State
  {
    State(Building(0), 0, 0, {}, job.callerRefs, job.before)
  }

  function Put(mem: seq<byte>, at: nat, bytes: seq<byte>): seq<byte>
    requires at + |bytes| <= |mem|
  {
    mem[..at] + bytes + mem[at + |bytes|..]
  }

  /** The bytes the device fetches for request j, and where its scatter entry puts them. */
  ghost function Landing(job: Job, j: nat): (w: (int, seq<byte>))
    requires WellFormed(job) && j < |job.segs|
    ensures w.0 == Start(job.segs, j) && w.0 + |w.1| <= |job.before|
    ensures w.1 == Fetch(job.remote, job.segs[j].handle, job.segs[j].offset, job.segs[j].length)
  {
    SliceInside(job.segs, j);
    var r := ReadsOf(job.segs, job.addr, job.lkeys, job.postId)[j];
    (r.scatter[0].addr - job.addr, Fetch(job.remote, r.rkey, r.remoteAddr, r.scatter[0].length))
  }

  /** The state after one step, or None where the step cannot be taken. */
  ghost function Next(job: Job, s: State, step: Step): (r: Option<State>)
    requires WellFormed(job) && |s.mem| == |job.before|
    ensures r.Some? ==> |r.value.mem| == |job.before|
  {
    var n := |job.segs|;
    match step
    case TakeRef =>
      if s.pc.Building? && s.pc.i < n
      then Some(s.(pc := Building(s.pc.i + 1), totalRef := s.totalRef + 1, refs := s.refs + 1)) else None
    case RegisterFails =>
      if s.pc.Building? && s.pc.i < n then Some(s.(pc := GivingBack)) else None
    case StartPost =>
      if s.pc == Building(n) then Some(s.(pc := Posting(0))) else None
    case Accept =>
      if s.pc.Posting? && s.pc.k < n
      then Some(s.(pc := Posting(s.pc.k + 1), accepted := s.pc.k + 1, outstanding := s.outstanding + {s.pc.k}))
      else None
    case PostSucceeds =>
      if s.pc == Posting(n) then Some(s.(pc := Returned(0))) else None
    case PostRefuses =>
      if s.pc.Posting? && s.pc.k < n then Some(s.(pc := Counting(0, s.pc.k))) else None
    case PostFailsWithoutBad =>
      if s.pc == Posting(0) then Some(s.(pc := GivingBack)) else None
    case SkipAccepted =>
      if s.pc.Counting? && s.pc.i < n && s.pc.i != s.pc.bad
      then Some(s.(pc := Counting(s.pc.i + 1, s.pc.bad), totalRef := s.totalRef - 1)) else None
    case FoundBad =>
      if s.pc.Counting? && (s.pc.i >= n || s.pc.i == s.pc.bad) then Some(s.(pc := GivingBack)) else None
    case GiveBack =>
      if s.pc.GivingBack? && s.totalRef > 0 then Some(s.(totalRef := s.totalRef - 1, refs := s.refs - 1)) else None
    case Return =>
      if s.pc.GivingBack? && s.totalRef <= 0 then Some(s.(pc := Returned(-1))) else None
    case DmaWrites(j, junk) =>
      if j in s.outstanding && j < n && |junk| == job.segs[j].length
      then SliceInside(job.segs, j); Some(s.(mem := Put(s.mem, Start(job.segs, j), junk))) else None
    case Complete(j) =>
      if j in s.outstanding && j < n
      then var (at, bytes) := Landing(job, j);
           Some(s.(outstanding := s.outstanding - {j}, refs := s.refs - 1, mem := Put(s.mem, at, bytes)))
      else None
  }

  ghost function Exec(job: Job, s: State, steps: seq<Step>): (r: Option<State>)
    requires WellFormed(job) && |s.mem| == |job.before|
    ensures r.Some? ==> |r.value.mem| == |job.before|
    decreases |steps|
  {
    if steps == [] then Some(s)
    else
      match Next(job, s, steps[0])
      case None => None
      case Some(t) => Exec(job, t, steps[1..])
  }

  /** References the poster still holds for requests that are not accepted. */
  function Held(n: nat, s: State): int
  {
    match s.pc
    case Building(_) => s.totalRef
    case Posting(k) => n - k
    case Counting(_, bad) => n - bad
    case GivingBack => s.totalRef
    case Returned(_) => 0
  }

  /** Slice j holds its remote segment once its read has completed and its old bytes if it was never accepted. */
  ghost predicate SliceSettled(job: Job, s: State, j: nat)
    requires WellFormed(job) && |s.mem| == |job.before| && j < |job.segs|
  {
    SliceInside(job.segs, j);
    var at := Start(job.segs, j);
    s.mem[at..at + job.segs[j].length] == if j < s.accepted then Landing(job, j).1
                                          else job.before[at..at + job.segs[j].length]
  }

  /** The count of references: the caller's, one per outstanding read, and those still held by the poster. */
  ghost predicate Counted(job: Job, s: State)
  {
    && Held(|job.segs|, s) >= 0
    && s.refs == job.callerRefs + |s.outstanding| + Held(|job.segs|, s)
  }

  ghost predicate PosterAt(n: nat, s: State)
  {
    match s.pc
    case Building(i) => i <= n && s.totalRef == i && s.accepted == 0
    case Posting(k) => k <= n && s.totalRef == n && s.accepted == k
    case Counting(i, bad) => i <= bad < n && s.totalRef == n - i && s.accepted == bad
    case GivingBack => 0 <= s.totalRef && s.totalRef + s.accepted <= n && s.accepted < n
    case Returned(ret) => if ret == 0 then s.accepted == n else ret == -1 && s.accepted < n
  }

  ghost predicate Inv(job: Job, s: State)
    requires WellFormed(job)
  {
    && |s.mem| == |job.before|
    && PosterAt(|job.segs|, s) && Counted(job, s)
    && (forall j | j in s.outstanding :: j < s.accepted)
    && (forall j: nat | j < |job.segs| && j !in s.outstanding :: SliceSettled(job, s, j))
  }

  lemma PutElsewhere(mem: seq<byte>, at: nat, bytes: seq<byte>, lo: nat, hi: nat)
    requires at + |bytes| <= |mem| && lo <= hi <= |mem| && (hi <= at || at + |bytes| <= lo)
    ensures Put(mem, at, bytes)[lo..hi] == mem[lo..hi]
  {
  }

  lemma OtherSliceApart(segs: seq<Chunk>, j: nat, m: nat)
    requires j < |segs| && m < |segs| && j != m
    ensures Start(segs, j) + segs[j].length <= Total(segs) && Start(segs, m) + segs[m].length <= Total(segs)
    ensures Start(segs, m) + segs[m].length <= Start(segs, j) || Start(segs, j) + segs[j].length <= Start(segs, m)
  {
    SliceInside(segs, j);
    SliceInside(segs, m);
    if j < m { SlicesApart(segs, j, m); } else { SlicesApart(segs, m, j); }
  }

  /** Writing one slice changes no other. */
  lemma PutKeepsOtherSlices(segs: seq<Chunk>, mem: seq<byte>, j: nat, bytes: seq<byte>, m: nat)
    requires j < |segs| && m < |segs| && j != m && |mem| == Total(segs) && |bytes| == segs[j].length
    ensures Start(segs, j) + |bytes| <= |mem| && Start(segs, m) + segs[m].length <= |mem|
    ensures Put(mem, Start(segs, j), bytes)[Start(segs, m)..Start(segs, m) + segs[m].length]
         == mem[Start(segs, m)..Start(segs, m) + segs[m].length]
  {
    OtherSliceApart(segs, j, m);
    PutElsewhere(mem, Start(segs, j), bytes, Start(segs, m), Start(segs, m) + segs[m].length);
  }

  lemma DeviceWriteKeepsSlice(job: Job, s: State, t: State, j: nat, bytes: seq<byte>, m: nat)
    requires WellFormed(job) && |s.mem| == |job.before| && j < |job.segs| && |bytes| == job.segs[j].length
    requires m < |job.segs| && m != j && SliceSettled(job, s, m)
    requires Start(job.segs, j) + |bytes| <= |s.mem|
    requires t.mem == Put(s.mem, Start(job.segs, j), bytes) && t.accepted == s.accepted
    ensures |t.mem| == |job.before| && SliceSettled(job, t, m)
  {
    PutKeepsOtherSlices(job.segs, s.mem, j, bytes, m);
  }

  lemma DeviceWriteKeepsSlices(job: Job, s: State, t: State, j: nat, bytes: seq<byte>)
    requires WellFormed(job) && Inv(job, s) && j in s.outstanding && |bytes| == job.segs[j].length
    requires Start(job.segs, j) + |bytes| <= |s.mem|
    requires t.mem == Put(s.mem, Start(job.segs, j), bytes) && t.accepted == s.accepted
    ensures |t.mem| == |job.before|
    ensures forall m: nat | m < |job.segs| && m !in s.outstanding :: SliceSettled(job, t, m)
  {
    forall m: nat | m < |job.segs| && m !in s.outstanding ensures SliceSettled(job, t, m) {
      DeviceWriteKeepsSlice(job, s, t, j, bytes, m);
    }
  }

  lemma InvDevice(job: Job, s: State, step: Step)
    requires WellFormed(job) && Inv(job, s) && Next(job, s, step).Some?
    requires step.Complete? || step.DmaWrites?
    ensures Inv(job, Next(job, s, step).value)
  {
    var t := Next(job, s, step).value;
    match step
    case Complete(j) =>
      var (at, bytes) := Landing(job, j);
      DeviceWriteKeepsSlices(job, s, t, j, bytes);
      assert t.mem[at..at + |bytes|] == bytes;
    case DmaWrites(j, junk) =>
      SliceInside(job.segs, j);
      DeviceWriteKeepsSlices(job, s, t, j, junk);
  }

  lemma AcceptCounts(job: Job, s: State)
    requires WellFormed(job) && Inv(job, s) && Next(job, s, Accept).Some?
    ensures var t := Next(job, s, Accept).value;
            && PosterAt(|job.segs|, t) && Counted(job, t)
            && t.mem == s.mem && s.accepted == s.pc.k && t.accepted == s.pc.k + 1
            && t.outstanding == s.outstanding + {s.pc.k}
  {
    assert s.pc.k !in s.outstanding;
  }

  lemma AcceptKeepsSlice(job: Job, s: State, t: State, k: nat, m: nat)
    requires WellFormed(job) && |s.mem| == |job.before| && t.mem == s.mem
    requires m < |job.segs| && m != k && s.accepted == k && t.accepted == k + 1 && SliceSettled(job, s, m)
    ensures SliceSettled(job, t, m)
  {
  }

  lemma InvAccept(job: Job, s: State)
    requires WellFormed(job) && Inv(job, s) && Next(job, s, Accept).Some?
    ensures Inv(job, Next(job, s, Accept).value)
  {
    var t := Next(job, s, Accept).value;
    AcceptCounts(job, s);
    forall m: nat | m < |job.segs| && m !in t.outstanding ensures SliceSettled(job, t, m) {
      AcceptKeepsSlice(job, s, t, s.pc.k, m);
    }
  }

  lemma SettledCarries(job: Job, s: State, t: State)
    requires WellFormed(job) && Inv(job, s)
    requires t.mem == s.mem && t.accepted == s.accepted && t.outstanding == s.outstanding
    ensures forall m: nat | m < |job.segs| && m !in t.outstanding :: SliceSettled(job, t, m)
  {
    forall m: nat | m < |job.segs| && m !in t.outstanding ensures SliceSettled(job, t, m) {
      assert SliceSettled(job, s, m);
    }
  }

  lemma CountedPoster(job: Job, s: State, step: Step)
    requires WellFormed(job) && |s.mem| == |job.before| && PosterAt(|job.segs|, s) && Counted(job, s)
    requires Next(job, s, step).Some? && !step.Complete? && !step.DmaWrites? && !step.Accept?
    ensures var t := Next(job, s, step).value;
            && PosterAt(|job.segs|, t) && Counted(job, t)
            && t.mem == s.mem && t.accepted == s.accepted && t.outstanding == s.outstanding
  {
  }

  lemma InvNext(job: Job, s: State, step: Step)
    requires WellFormed(job) && Inv(job, s) && Next(job, s, step).Some?
    ensures Inv(job, Next(job, s, step).value)
  {
    if step.Complete? || step.DmaWrites? {
      InvDevice(job, s, step);
    } else if step.Accept? {
      InvAccept(job, s);
    } else {
      CountedPoster(job, s, step);
      SettledCarries(job, s, Next(job, s, step).value);
    }
  }

  lemma {:induction false} InvRun(job: Job, s: State, steps: seq<Step>)
    requires WellFormed(job) && Inv(job, s) && Exec(job, s, steps).Some?
    ensures Inv(job, Exec(job, s, steps).value)
    decreases |steps|
  {
    if steps != [] {
      InvNext(job, s, steps[0]);
      InvRun(job, Next(job, s, steps[0]).value, steps[1..]);
    }
  }

  lemma InvInit(job: Job)
    requires WellFormed(job)
    ensures Inv(job, Init(job))
  {
    forall j: nat | j < |job.segs| ensures SliceSettled(job, Init(job), j) {
      SliceInside(job.segs, j);
    }
  }

  ghost predicate Reachable(job: Job, s: State)
    requires WellFormed(job)
  {
    exists steps: seq<Step> :: Exec(job, Init(job), steps) == Some(s)
  }

  lemma ReachableInv(job: Job, s: State)
    requires WellFormed(job) && Reachable(job, s)
    ensures Inv(job, s)
  {
    var steps: seq<Step> :| Exec(job, Init(job), steps) == Some(s);
    InvInit(job);
    InvRun(job, Init(job), steps);
  }

  /** At every point of every interleaving the references are accounted for. */
  lemma ReferencesCounted(job: Job, s: State)
    requires WellFormed(job) && Reachable(job, s)
    ensures s.refs == job.callerRefs + |s.outstanding| + Held(|job.segs|, s)
    ensures s.refs >= job.callerRefs + |s.outstanding|
    ensures s.pc.Returned? && s.outstanding == {} ==> s.refs == job.callerRefs
  {
    ReachableInv(job, s);
  }

  /**
   * However the reads were ordered, the first accepted slices end up holding their segments and the rest are
   * untouched.
   */
  lemma QuietSlices(job: Job, s: State, j: nat)
    requires WellFormed(job) && Reachable(job, s) && s.outstanding == {} && j < |job.segs|
    ensures |s.mem| == |job.before| && Start(job.segs, j) + job.segs[j].length <= |s.mem|
    ensures var at := Start(job.segs, j); var len := job.segs[j].length;
            s.mem[at..at + len] == if j < s.accepted
                                   then Fetch(job.remote, job.segs[j].handle, job.segs[j].offset, len)
                                   else job.before[at..at + len]
  {
    ReachableInv(job, s);
    SliceInside(job.segs, j);
    assert SliceSettled(job, s, j);
  }

  /** After success and all completions the buffer is the concatenation of the remote segments. */
  lemma BufferGathered(job: Job, s: State)
    requires WellFormed(job) && Reachable(job, s)
    requires s.pc == Returned(0) && s.outstanding == {}
    ensures s.mem == Gathered(job.remote, job.segs) && s.refs == job.callerRefs
  {
    ReachableInv(job, s);
    assert job.segs[..|job.segs|] == job.segs;
    forall i: nat | i < |job.segs|
      ensures Start(job.segs, i) + job.segs[i].length <= |s.mem|
      ensures s.mem[Start(job.segs, i)..Start(job.segs, i) + job.segs[i].length]
           == Fetch(job.remote, job.segs[i].handle, job.segs[i].offset, job.segs[i].length)
    {
      QuietSlices(job, s, i);
    }
    SlicesMakeGathered(job.remote, job.segs, |job.segs|, s.mem);
    assert s.mem[..|s.mem|] == s.mem;
  }

  /** Byte by byte: byte k of segment j is the one at its remote address, behind all earlier segments. */
  lemma ByteGathered(job: Job, s: State, j: nat, k: nat)
    requires WellFormed(job) && Reachable(job, s) && s.pc == Returned(0) && s.outstanding == {}
    requires j < |job.segs| && k < job.segs[j].length
    ensures |s.mem| == Total(job.segs) && Total(job.segs[..j]) + k < |s.mem|
    ensures s.mem[Total(job.segs[..j]) + k] == job.remote(job.segs[j].handle, job.segs[j].offset + k)
  {
    ReachableInv(job, s);
    QuietSlices(job, s, j);
    var at := Start(job.segs, j);
    assert s.mem[at + k] == s.mem[at..at + job.segs[j].length][k];
  }

  /** An upper bound on the steps still to come, not counting early writes of the device. */
  function Rank(n: nat, s: State): int
  {
    |s.outstanding| +
    match s.pc
    case Building(i) => 5 * n + 10 - i
    case Posting(k) => 2 * (n - k) + 2 * n + 3
    case Counting(i, bad) => bad - i + n + 2
    case GivingBack => s.totalRef + 1
    case Returned(_) => 0
  }

  lemma RankFalls(job: Job, s: State, step: Step)
    requires WellFormed(job) && |s.mem| == |job.before| && PosterAt(|job.segs|, s) && Next(job, s, step).Some?
    requires s.accepted !in s.outstanding
    ensures step.DmaWrites? ==> Rank(|job.segs|, Next(job, s, step).value) == Rank(|job.segs|, s)
    ensures !step.DmaWrites? ==> 0 <= Rank(|job.segs|, Next(job, s, step).value) < Rank(|job.segs|, s)
  {
  }

  /** Every step but an early write brings the end nearer, so every run ends. */
  lemma StepsRunOut(job: Job, s: State, step: Step)
    requires WellFormed(job) && Inv(job, s) && Next(job, s, step).Some?
    ensures step.DmaWrites? ==> Rank(|job.segs|, Next(job, s, step).value) == Rank(|job.segs|, s)
    ensures !step.DmaWrites? ==> 0 <= Rank(|job.segs|, Next(job, s, step).value) < Rank(|job.segs|, s)
  {
    RankFalls(job, s, step);
  }

  lemma {:induction false} ExecConcat(job: Job, s: State, a: seq<Step>, b: seq<Step>)
    requires WellFormed(job) && |s.mem| == |job.before| && Exec(job, s, a).Some?
    ensures Exec(job, s, a + b) == Exec(job, Exec(job, s, a).value, b)
    decreases |a|
  {
    if a == [] {
      assert a + b == b;
    } else {
      assert (a + b)[0] == a[0] && (a + b)[1..] == a[1..] + b;
      ExecConcat(job, Next(job, s, a[0]).value, a[1..], b);
    }
  }

  ghost predicate Quiet(s: State)
  {
    s.pc.Returned? && s.outstanding == {}
  }

  /** A step other than an early write that is possible in a state that is not quiet. */
  ghost function Pending(job: Job, s: State): (step: Step)
    requires WellFormed(job) && Inv(job, s) && !Quiet(s)
    ensures !step.DmaWrites? && Next(job, s, step).Some?
  {
    if s.outstanding != {} then
      var j :| j in s.outstanding; Complete(j)
    else
      match s.pc
      case Building(i) => if i < |job.segs| then TakeRef else StartPost
      case Posting(k) => if k < |job.segs| then Accept else PostSucceeds
      case Counting(i, bad) => if i == bad then FoundBad else SkipAccepted
      case GivingBack => if s.totalRef > 0 then GiveBack else Return
  }

  /**
   * No run gets stuck: every reachable state can be run on to a quiet one, where only the caller's references
   * are left.
   */
  lemma {:induction false} RunsToQuiet(job: Job, s: State) returns (steps: seq<Step>)
    requires WellFormed(job) && Inv(job, s)
    ensures Exec(job, s, steps).Some? && Quiet(Exec(job, s, steps).value)
    ensures Exec(job, s, steps).value.refs == job.callerRefs
    decreases Rank(|job.segs|, s)
  {
    if Quiet(s) {
      steps := [];
    } else {
      var step := Pending(job, s);
      var t := Next(job, s, step).value;
      InvNext(job, s, step);
      StepsRunOut(job, s, step);
      var rest := RunsToQuiet(job, t);
      steps := [step] + rest;
      assert steps[0] == step && steps[1..] == rest;
    }
  }

  function Firsts(k: nat): (r: set<nat>)
    ensures forall j: nat :: j in r <==> j < k
  {
    if k == 0 then {} else Firsts(k - 1) + {k - 1}
  }

  function Repeat(step: Step, m: nat): seq<Step>
  {
    if m == 0 then [] else [step] + Repeat(step, m - 1)
  }

  lemma {:induction false} TakeRefs(job: Job, s: State, m: nat)
    requires WellFormed(job) && |s.mem| == |job.before| && s.pc.Building? && s.pc.i + m <= |job.segs|
    ensures Exec(job, s, Repeat(TakeRef, m))
         == Some(s.(pc := Building(s.pc.i + m), totalRef := s.totalRef + m, refs := s.refs + m))
    decreases m
  {
    if m > 0 { TakeRefs(job, Next(job, s, TakeRef).value, m - 1); }
  }

  lemma {:induction false} Accepts(job: Job, s: State, m: nat)
    requires WellFormed(job) && |s.mem| == |job.before| && s.pc.Posting? && s.accepted == s.pc.k
    requires s.pc.k + m <= |job.segs| && s.outstanding == Firsts(s.pc.k)
    ensures Exec(job, s, Repeat(Accept, m))
         == Some(s.(pc := Posting(s.pc.k + m), accepted := s.pc.k + m, outstanding := Firsts(s.pc.k + m)))
    decreases m
  {
    if m > 0 {
      assert s.outstanding + {s.pc.k} == Firsts(s.pc.k + 1);
      Accepts(job, Next(job, s, Accept).value, m - 1);
    }
  }

  lemma {:induction false} Skips(job: Job, s: State, m: nat)
    requires WellFormed(job) && |s.mem| == |job.before| && s.pc.Counting? && s.pc.i + m <= s.pc.bad < |job.segs|
    ensures Exec(job, s, Repeat(SkipAccepted, m))
         == Some(s.(pc := Counting(s.pc.i + m, s.pc.bad), totalRef := s.totalRef - m))
    decreases m
  {
    if m > 0 { Skips(job, Next(job, s, SkipAccepted).value, m - 1); }
  }

  lemma {:induction false} GivesBack(job: Job, s: State)
    requires WellFormed(job) && |s.mem| == |job.before| && s.pc.GivingBack? && s.totalRef >= 0
    ensures Exec(job, s, Repeat(GiveBack, s.totalRef) + [Return])
         == Some(s.(pc := Returned(-1), totalRef := 0, refs := s.refs - s.totalRef))
    decreases s.totalRef
  {
    if s.totalRef == 0 {
      assert Repeat(GiveBack, 0) + [Return] == [Return];
      assert Exec(job, s, [Return]) == Exec(job, Next(job, s, Return).value, [Return][1..]);
    } else {
      var t := Next(job, s, GiveBack).value;
      assert Repeat(GiveBack, s.totalRef) + [Return] == [GiveBack] + (Repeat(GiveBack, t.totalRef) + [Return]);
      GivesBack(job, t);
    }
  }

  lemma ExecOne(job: Job, s: State, step: Step)
    requires WellFormed(job) && |s.mem| == |job.before| && Next(job, s, step).Some?
    ensures Exec(job, s, [step]) == Next(job, s, step)
  {
    assert [step][1..] == [];
  }

  /** The steps after the post call refused request k. */
  function RefusedSteps(n: nat, k: nat): seq<Step>
    requires k < n
  {
    Repeat(SkipAccepted, k) + ([FoundBad] + (Repeat(GiveBack, n - k) + [Return]))
  }

  /** The steps from the start of the post call on, given its answer. */
  function PostSteps(n: nat, reply: PostReply): seq<Step>
    requires reply.Refused? && reply.bad.Some? ==> reply.bad.value < n
  {
    match reply
    case TookAll => Repeat(Accept, n) + [PostSucceeds]
    case Refused(_, Some(k)) => Repeat(Accept, k) + ([PostRefuses] + RefusedSteps(n, k))
    case Refused(_, None) => [PostFailsWithoutBad] + (Repeat(GiveBack, n) + [Return])
  }

  /** The steps `PostReads` takes from its first reference on, given the outcomes of its foreign calls. */
  function PosterSteps(n: nat, env: Env): seq<Step>
    requires env.reply.Refused? && env.reply.bad.Some? ==> env.reply.bad.value < n
  {
    if env.registerFailsAt < n then
      Repeat(TakeRef, env.registerFailsAt) + ([RegisterFails] + (Repeat(GiveBack, env.registerFailsAt) + [Return]))
    else
      Repeat(TakeRef, n) + ([StartPost] + PostSteps(n, env.reply))
  }

  /**
   * With no completion in between, the steps end where `PostReads` promises: same result, same references,
   * same accepted reads.
   */
  lemma PosterStepsMatch(job: Job, env: Env)
    requires WellFormed(job) && Sensible(env, job.segs)
    ensures var exit := ChainExit(|job.segs|, env); var k := Accepted(|job.segs|, exit);
            var r := Exec(job, Init(job), PosterSteps(|job.segs|, env));
            && r.Some? && r.value.pc == Returned(if exit.Posted? then 0 else -1)
            && r.value.refs == job.callerRefs + k
            && r.value.accepted == k && r.value.outstanding == Firsts(k) && r.value.mem == job.before
  {
    var n := |job.segs|;
    var s0 := Init(job);
    assert s0.outstanding == Firsts(0);
    if env.registerFailsAt < n {
      var f := env.registerFailsAt;
      TakeRefs(job, s0, f);
      var s1 := Exec(job, s0, Repeat(TakeRef, f)).value;
      ExecConcat(job, s0, Repeat(TakeRef, f), [RegisterFails] + (Repeat(GiveBack, f) + [Return]));
      ExecOne(job, s1, RegisterFails);
      ExecConcat(job, s1, [RegisterFails], Repeat(GiveBack, f) + [Return]);
      GivesBack(job, s1.(pc := GivingBack));
    } else {
      TakeRefs(job, s0, n);
      var s1 := Exec(job, s0, Repeat(TakeRef, n)).value;
      ExecConcat(job, s0, Repeat(TakeRef, n), [StartPost] + PostSteps(n, env.reply));
      ExecOne(job, s1, StartPost);
      ExecConcat(job, s1, [StartPost], PostSteps(n, env.reply));
      PostStepsMatch(job, env.reply, s1.(pc := Posting(0)));
    }
  }

  lemma PostStepsMatch(job: Job, reply: PostReply, s: State)
    requires WellFormed(job) && (reply.Refused? && reply.bad.Some? ==> reply.bad.value < |job.segs|)
    requires s == State(Posting(0), |job.segs|, 0, {}, job.callerRefs + |job.segs|, job.before)
    ensures var k := AcceptedBy(|job.segs|, reply); var r := Exec(job, s, PostSteps(|job.segs|, reply));
            && r.Some? && r.value.pc == Returned(if reply.TookAll? then 0 else -1) && r.value.refs == job.callerRefs + k
            && r.value.accepted == k && r.value.outstanding == Firsts(k) && r.value.mem == job.before
  {
    var n := |job.segs|;
    match reply
    case TookAll =>
      AcceptsThen(job, s, n, [PostSucceeds]);
      ExecOne(job, Exec(job, s, Repeat(Accept, n)).value, PostSucceeds);
    case Refused(_, Some(k)) =>
      AcceptsThen(job, s, k, [PostRefuses] + RefusedSteps(n, k));
      RefusedStepsMatch(job, Exec(job, s, Repeat(Accept, k)).value);
    case Refused(_, None) =>
      ExecOne(job, s, PostFailsWithoutBad);
      ExecConcat(job, s, [PostFailsWithoutBad], Repeat(GiveBack, n) + [Return]);
      GivesBack(job, s.(pc := GivingBack));
  }

  lemma AcceptsThen(job: Job, s: State, k: nat, rest: seq<Step>)
    requires WellFormed(job) && |s.mem| == |job.before| && s.pc == Posting(0) && s.accepted == 0 && s.outstanding == {}
    requires k <= |job.segs|
    ensures Exec(job, s, Repeat(Accept, k)) == Some(s.(pc := Posting(k), accepted := k, outstanding := Firsts(k)))
    ensures Exec(job, s, Repeat(Accept, k) + rest) == Exec(job, Exec(job, s, Repeat(Accept, k)).value, rest)
  {
    assert s.outstanding == Firsts(0);
    Accepts(job, s, k);
    ExecConcat(job, s, Repeat(Accept, k), rest);
  }

  lemma RefusedStepsMatch(job: Job, s: State)
    requires WellFormed(job) && |s.mem| == |job.before| && s.totalRef == |job.segs|
    requires s.pc.Posting? && s.pc.k < |job.segs|
    ensures Exec(job, s, [PostRefuses] + RefusedSteps(|job.segs|, s.pc.k))
         == Some(s.(pc := Returned(-1), totalRef := 0, refs := s.refs - (|job.segs| - s.pc.k)))
  {
    var k, tail := s.pc.k, Repeat(GiveBack, |job.segs| - s.pc.k) + [Return];
    ExecOne(job, s, PostRefuses);
    ExecConcat(job, s, [PostRefuses], RefusedSteps(|job.segs|, k));
    var s2 := s.(pc := Counting(0, k));
    Skips(job, s2, k);
    ExecConcat(job, s2, Repeat(SkipAccepted, k), [FoundBad] + tail);
    var t := s.(pc := Counting(k, k), totalRef := |job.segs| - k);
    ExecOne(job, t, FoundBad);
    ExecConcat(job, t, [FoundBad], tail);
    GivesBack(job, t.(pc := GivingBack));
  }

  // ---- any returned run, without the steps of the device ----

  predicate ByDevice(step: Step)
  {
    step.DmaWrites? || step.Complete?
  }

  /** The poster's part of a run, with the acceptances by which its post call is answered. */
  function Erase(steps: seq<Step>): seq<Step>
  {
    if steps == [] then []
    else (if ByDevice(steps[0]) then [] else [steps[0]]) + Erase(steps[1..])
  }

  /** The ways into giving references back: a failed registration, a refused request, a failure without bad_wr. */
  datatype Way = Unregistered(f: nat) | RefusedAt(k: nat) | NoneTaken

  ghost predicate Possible(n: nat, way: Way)
  {
    match way
    case Unregistered(f) => f < n
    case RefusedAt(k) => k < n
    case NoneTaken => true
  }

  function TakenBy(way: Way): nat
  {
    if way.RefusedAt? then way.k else 0
  }

  /** References to give back on that way. */
  function Owing(n: nat, way: Way): int
  {
    match way
    case Unregistered(f) => f
    case RefusedAt(k) => n - k
    case NoneTaken => n
  }

  function WayIn(n: nat, way: Way): seq<Step>
  {
    match way
    case Unregistered(f) => Repeat(TakeRef, f) + [RegisterFails]
    case RefusedAt(k) => UpToCount(n, k, k) + [FoundBad]
    case NoneTaken => UpToPost(n, 0) + [PostFailsWithoutBad]
  }

  function UpToPost(n: nat, k: nat): seq<Step>
  {
    Repeat(TakeRef, n) + [StartPost] + Repeat(Accept, k)
  }

  function UpToCount(n: nat, bad: nat, i: nat): seq<Step>
  {
    UpToPost(n, bad) + [PostRefuses] + Repeat(SkipAccepted, i)
  }

  /** What a returned poster did is what `PosterSteps` says for some outcomes of its calls, with their result. */
  ghost predicate DoneAs(job: Job, s: State, h: seq<Step>, env: Env)
    requires WellFormed(job)
  {
    && Sensible(env, job.segs) && h == PosterSteps(|job.segs|, env)
    && var exit := ChainExit(|job.segs|, env);
       s.pc == Returned(if exit.Posted? then 0 else -1) && s.accepted == Accepted(|job.segs|, exit)
  }

  /** h is how the poster got where it stands. */
  ghost predicate History(job: Job, s: State, h: seq<Step>)
    requires WellFormed(job)
  {
    var n := |job.segs|;
    match s.pc
    case Building(i) => h == Repeat(TakeRef, i)
    case Posting(k) => h == UpToPost(n, k)
    case Counting(i, bad) => h == UpToCount(n, bad, i)
    case GivingBack => exists way, g: nat :: OnWay(n, s, h, way, g)
    case Returned(_) => exists env :: DoneAs(job, s, h, env)
  }

  /** Giving back, on the given way, with g references given back so far. */
  ghost predicate OnWay(n: nat, s: State, h: seq<Step>, way: Way, g: nat)
  {
    && Possible(n, way) && s.accepted == TakenBy(way) && s.totalRef + g == Owing(n, way)
    && h == WayIn(n, way) + Repeat(GiveBack, g)
  }

  lemma {:induction false} RepeatSnoc(step: Step, m: nat)
    ensures Repeat(step, m + 1) == Repeat(step, m) + [step]
    decreases m
  {
    if m > 0 {
      RepeatSnoc(step, m - 1);
    }
  }

  function EnvOf(job: Job, way: Way): Env
  {
    match way
    case Unregistered(f) => Env(None, true, true, true, f, job.lkeys, TookAll)
    case RefusedAt(k) => Env(None, true, true, true, |job.segs|, job.lkeys, Refused(-1, Some(k)))
    case NoneTaken => Env(None, true, true, true, |job.segs|, job.lkeys, Refused(-1, None))
  }

  lemma Regroup(a: seq<Step>, b: seq<Step>, c: seq<Step>, d: seq<Step>, e: seq<Step>, f: seq<Step>, g: seq<Step>,
                h: seq<Step>)
    ensures a + b + c + d + e + f + g + h == a + (b + (c + (d + (e + (f + (g + h))))))
  {
  }

  lemma UnregisteredSteps(n: nat, f: nat, env: Env)
    requires f < n && env.registerFailsAt == f && env.reply == TookAll
    ensures WayIn(n, Unregistered(f)) + Repeat(GiveBack, f) + [Return] == PosterSteps(n, env)
  {
    Regroup(Repeat(TakeRef, f), [RegisterFails], Repeat(GiveBack, f), [Return], [], [], [], []);
  }

  lemma RefusedAtSteps(n: nat, k: nat, env: Env)
    requires k < n && env.registerFailsAt == n && env.reply == Refused(-1, Some(k))
    ensures WayIn(n, RefusedAt(k)) + Repeat(GiveBack, n - k) + [Return] == PosterSteps(n, env)
  {
    Regroup(Repeat(TakeRef, n), [StartPost], Repeat(Accept, k), [PostRefuses], Repeat(SkipAccepted, k), [FoundBad],
            Repeat(GiveBack, n - k), [Return]);
  }

  lemma NoneTakenSteps(n: nat, env: Env)
    requires env.registerFailsAt == n && env.reply == Refused(-1, None)
    ensures WayIn(n, NoneTaken) + Repeat(GiveBack, n) + [Return] == PosterSteps(n, env)
  {
    assert WayIn(n, NoneTaken) == Repeat(TakeRef, n) + [StartPost] + [PostFailsWithoutBad];
    Regroup(Repeat(TakeRef, n), [StartPost], [PostFailsWithoutBad], Repeat(GiveBack, n), [Return], [], [], []);
  }

  lemma WaySensible(job: Job, way: Way)
    requires WellFormed(job) && Possible(|job.segs|, way)
    ensures Sensible(EnvOf(job, way), job.segs)
  {
  }

  lemma WayIsPosterSteps(job: Job, way: Way)
    requires WellFormed(job) && Possible(|job.segs|, way)
    ensures var n, env := |job.segs|, EnvOf(job, way);
            Sensible(env, job.segs) && WayIn(n, way) + Repeat(GiveBack, Owing(n, way)) + [Return] == PosterSteps(n, env)
  {
    var n, env := |job.segs|, EnvOf(job, way);
    WaySensible(job, way);
    match way
    case Unregistered(f) => UnregisteredSteps(n, f, env);
    case RefusedAt(k) => RefusedAtSteps(n, k, env);
    case NoneTaken => NoneTakenSteps(n, env);
  }

  /** Each step of the poster goes on from its history: building, posting and counting. */
  lemma HistoryForward(job: Job, s: State, h: seq<Step>, step: Step)
    requires WellFormed(job) && |s.mem| == |job.before| && History(job, s, h) && Next(job, s, step).Some?
    requires step.TakeRef? || step.StartPost? || step.Accept? || step.PostRefuses? || step.SkipAccepted?
    ensures History(job, Next(job, s, step).value, h + [step])
  {
    var n := |job.segs|;
    match step
    case TakeRef => RepeatSnoc(TakeRef, s.pc.i);
    case StartPost => assert h + [StartPost] == UpToPost(n, 0);
    case Accept =>
      RepeatSnoc(Accept, s.pc.k);
      assert h + [Accept] == UpToPost(n, s.pc.k + 1);
    case PostRefuses => assert h + [PostRefuses] == UpToCount(n, s.pc.k, 0);
    case SkipAccepted =>
      RepeatSnoc(SkipAccepted, s.pc.i);
      assert h + [SkipAccepted] == UpToCount(n, s.pc.bad, s.pc.i + 1);
    case _ =>
  }

  /** Turning to give references back. */
  lemma HistoryTurn(job: Job, s: State, h: seq<Step>, step: Step)
    requires WellFormed(job) && |s.mem| == |job.before| && PosterAt(|job.segs|, s)
    requires History(job, s, h) && Next(job, s, step).Some?
    requires step.RegisterFails? || step.FoundBad? || step.PostFailsWithoutBad?
    ensures History(job, Next(job, s, step).value, h + [step])
  {
    var n, t := |job.segs|, Next(job, s, step).value;
    match step
    case RegisterFails => EnterWay(n, t, h + [step], Unregistered(s.pc.i));
    case FoundBad => EnterWay(n, t, h + [step], RefusedAt(s.pc.bad));
    case PostFailsWithoutBad => EnterWay(n, t, h + [step], NoneTaken);
    case _ =>
  }

  lemma HistoryGiveBack(job: Job, s: State, h: seq<Step>, step: Step)
    requires WellFormed(job) && |s.mem| == |job.before| && History(job, s, h)
    requires step.GiveBack? && Next(job, s, step).Some?
    ensures History(job, Next(job, s, step).value, h + [step])
  {
    var n := |job.segs|;
    var way, g: nat :| OnWay(n, s, h, way, g);
    RepeatSnoc(GiveBack, g);
    assert h + [step] == WayIn(n, way) + Repeat(GiveBack, g + 1);
    assert OnWay(n, Next(job, s, step).value, h + [step], way, g + 1);
  }

  lemma WayExits(job: Job, way: Way)
    requires WellFormed(job) && Possible(|job.segs|, way)
    ensures var exit := ChainExit(|job.segs|, EnvOf(job, way));
            !exit.Posted? && Accepted(|job.segs|, exit) == TakenBy(way)
  {
  }

  lemma WayDone(job: Job, s: State, h: seq<Step>, way: Way, g: nat, t: State)
    requires WellFormed(job) && OnWay(|job.segs|, s, h, way, g) && g == Owing(|job.segs|, way)
    requires t.pc == Returned(-1) && t.accepted == s.accepted
    ensures DoneAs(job, t, h + [Return], EnvOf(job, way))
  {
    WayIsPosterSteps(job, way);
    WayExits(job, way);
  }

  lemma HistoryReturn(job: Job, s: State, h: seq<Step>, step: Step)
    requires WellFormed(job) && |s.mem| == |job.before| && PosterAt(|job.segs|, s)
    requires History(job, s, h) && step.Return? && Next(job, s, step).Some?
    ensures History(job, Next(job, s, step).value, h + [step])
  {
    var way, g: nat :| OnWay(|job.segs|, s, h, way, g);
    WayDone(job, s, h, way, g, Next(job, s, step).value);
  }

  lemma HistorySuccess(job: Job, s: State, h: seq<Step>, step: Step)
    requires WellFormed(job) && |s.mem| == |job.before| && PosterAt(|job.segs|, s)
    requires History(job, s, h) && step.PostSucceeds? && Next(job, s, step).Some?
    ensures History(job, Next(job, s, step).value, h + [step])
  {
    var n := |job.segs|;
    var env := Env(None, true, true, true, n, job.lkeys, TookAll);
    Regroup(Repeat(TakeRef, n), [StartPost], Repeat(Accept, n), [PostSucceeds], [], [], [], []);
    assert DoneAs(job, Next(job, s, step).value, h + [step], env);
  }

  lemma HistoryNext(job: Job, s: State, h: seq<Step>, step: Step)
    requires WellFormed(job) && |s.mem| == |job.before| && PosterAt(|job.segs|, s)
    requires History(job, s, h) && Next(job, s, step).Some?
    ensures History(job, Next(job, s, step).value, Grown(h, step))
  {
    if ByDevice(step) {
      DeviceKeepsHistory(job, s, h, step);
    } else if step.RegisterFails? || step.FoundBad? || step.PostFailsWithoutBad? {
      HistoryTurn(job, s, h, step);
    } else if step.GiveBack? {
      HistoryGiveBack(job, s, h, step);
    } else if step.Return? {
      HistoryReturn(job, s, h, step);
    } else if step.PostSucceeds? {
      HistorySuccess(job, s, h, step);
    } else {
      HistoryForward(job, s, h, step);
    }
  }

  lemma EnterWay(n: nat, s: State, h: seq<Step>, way: Way)
    requires Possible(n, way) && s.accepted == TakenBy(way) && s.totalRef == Owing(n, way) && h == WayIn(n, way)
    ensures exists w, g: nat :: OnWay(n, s, h, w, g)
  {
    assert h == WayIn(n, way) + Repeat(GiveBack, 0);
    assert OnWay(n, s, h, way, 0);
  }

  lemma PosterAtNext(job: Job, s: State, step: Step)
    requires WellFormed(job) && |s.mem| == |job.before| && PosterAt(|job.segs|, s) && Next(job, s, step).Some?
    ensures PosterAt(|job.segs|, Next(job, s, step).value)
  {
  }

  function Grown(h: seq<Step>, step: Step): seq<Step>
  {
    if ByDevice(step) then h else h + [step]
  }

  lemma EraseGrown(h: seq<Step>, steps: seq<Step>)
    requires steps != []
    ensures Grown(h, steps[0]) + Erase(steps[1..]) == h + Erase(steps)
  {
  }

  /** What holds of a state with its history and is kept by every step holds along every run. */
  lemma {:induction false} AlongRun(job: Job, p: (State, seq<Step>) -> bool, s: State, h: seq<Step>,
                                    steps: seq<Step>, u: State)
    requires WellFormed(job) && |s.mem| == |job.before| && p(s, h) && Exec(job, s, steps) == Some(u)
    requires forall v: State, g: seq<Step>, step: Step |
               |v.mem| == |job.before| && p(v, g) && Next(job, v, step).Some? ::
               p(Next(job, v, step).value, Grown(g, step))
    ensures p(u, h + Erase(steps))
    decreases |steps|
  {
    if steps == [] {
      assert h + [] == h;
    } else {
      var t, g := Next(job, s, steps[0]).value, Grown(h, steps[0]);
      assert p(t, g);
      EraseGrown(h, steps);
      AlongRun(job, p, t, g, steps[1..], u);
    }
  }

  lemma DeviceKeepsHistory(job: Job, s: State, h: seq<Step>, step: Step)
    requires WellFormed(job) && |s.mem| == |job.before| && History(job, s, h)
    requires Next(job, s, step).Some? && ByDevice(step)
    ensures History(job, Next(job, s, step).value, h)
  {
    var t := Next(job, s, step).value;
    if s.pc.GivingBack? {
      var way, g: nat :| OnWay(|job.segs|, s, h, way, g);
      assert OnWay(|job.segs|, t, h, way, g);
    } else if s.pc.Returned? {
      var env :| DoneAs(job, s, h, env);
      assert DoneAs(job, t, h, env);
    }
  }

  /**
   * Whatever the device does in between: without its steps, a run that has returned is the run of the poster
   * for some outcomes of its calls, with the same result and the same accepted reads. Together with
   * PosterStepsMatch this ties every returned run to `PostReads`.
   */
  lemma ReturnedRunIsPosterRun(job: Job, steps: seq<Step>)
    requires WellFormed(job) && Exec(job, Init(job), steps).Some? && Exec(job, Init(job), steps).value.pc.Returned?
    ensures exists env :: DoneAs(job, Exec(job, Init(job), steps).value, Erase(steps), env)
  {
    var u := Exec(job, Init(job), steps).value;
    ghost var p := (s: State, h: seq<Step>) => PosterAt(|job.segs|, s) && History(job, s, h);
    forall s: State, h: seq<Step>, step: Step | |s.mem| == |job.before| && p(s, h) && Next(job, s, step).Some?
      ensures p(Next(job, s, step).value, Grown(h, step))
    {
      PosterAtNext(job, s, step);
      HistoryNext(job, s, h, step);
    }
    var none: seq<Step> := Repeat(TakeRef, 0);
    assert History(job, Init(job), none) && PosterAt(|job.segs|, Init(job));
    assert p(Init(job), none);
    AlongRun(job, p, Init(job), none, steps, u);
    assert none + Erase(steps) == Erase(steps);
    assert p(u, Erase(steps));
  }
}
