/** The bounded retry: create the resources, connect, and on failure destroy them and try again. */
module ConnectRetry {
  import opened Connector

  const MAX_RETRIES: nat := 10

  /** One turn of the loop: outcomes of the creation, of the connector, and of the destruction. */
  datatype Trial = Trial(createOk: bool, attempt: Attempt, destroyOk: bool)

  datatype Stop = Connected | CreateFailed | DestroyFailed | Exhausted

  /** How the retry ends, with the resources created and destroyed, the resolve calls made and the flag left. */
  datatype Result = Result(stop: Stop, creates: nat, destroys: nat, calls: nat, workOn: bool)

  function Retry(retries: nat, trials: seq<Trial>, workOn: bool): Result
    decreases |trials|
  {
    if trials == [] then Result(Exhausted, 0, 0, 0, workOn)
    else if !trials[0].createOk then Result(CreateFailed, 0, 0, 0, workOn)
    else
      var o := Connect(retries, trials[0].attempt, workOn);
      var calls := o.addrCalls + o.routeCalls;
      if o.ok then Result(Connected, 1, 0, calls, o.workOn)
      else if !trials[0].destroyOk then Result(DestroyFailed, 1, 0, calls, o.workOn)
      else
        var rest := Retry(retries, trials[1..], o.workOn);
        Result(rest.stop, rest.creates + 1, rest.destroys + 1, rest.calls + calls, rest.workOn)
  }

  /** The flag before trial k: as given, or on from the first trial whose context could not be created. */
  ghost predicate FlagBefore(retries: nat, trials: seq<Trial>, workOn: bool, k: nat)
    requires k <= |trials|
  {
    workOn || exists j | 0 <= j < k :: ReachesInit(retries, trials[j].attempt) && !trials[j].attempt.initOk
  }

  /** Trial k is reached and connects there if the flag is as given. */
  ghost predicate ConnectsAt(retries: nat, trials: seq<Trial>, workOn: bool, k: nat)
    requires k < |trials|
  {
    Connect(retries, trials[k].attempt, FlagBefore(retries, trials, workOn, k)).ok
  }

  /** Trial j is created, fails to connect and is destroyed. */
  ghost predicate Undone(retries: nat, trials: seq<Trial>, workOn: bool, j: nat)
    requires j < |trials|
  {
    trials[j].createOk && !ConnectsAt(retries, trials, workOn, j) && trials[j].destroyOk
  }

  /** Trial k is reached: all before it are undone. */
  ghost predicate Reached(retries: nat, trials: seq<Trial>, workOn: bool, k: nat)
  {
    k <= |trials| && forall j: nat | j < k :: Undone(retries, trials, workOn, j)
  }

  /** Trial k is the first that is created and connects. */
  ghost predicate FirstSuccess(retries: nat, trials: seq<Trial>, workOn: bool, k: nat)
  {
    k < |trials| && Reached(retries, trials, workOn, k) && trials[k].createOk && ConnectsAt(retries, trials, workOn, k)
  }

  /** Seen from the second trial on, the flag starts where the first trial left it. */
  lemma FlagShift(retries: nat, trials: seq<Trial>, workOn: bool, k: nat)
    requires 0 < k <= |trials|
    ensures var next := Connect(retries, trials[0].attempt, workOn).workOn;
            FlagBefore(retries, trials, workOn, k) <==> FlagBefore(retries, trials[1..], next, k - 1)
  {
    var next := Connect(retries, trials[0].attempt, workOn).workOn;
    FlagRestored(retries, trials[0].attempt, workOn);
    if FlagBefore(retries, trials, workOn, k) && !next {
      var j :| 0 <= j < k && ReachesInit(retries, trials[j].attempt) && !trials[j].attempt.initOk;
      assert trials[1..][j - 1] == trials[j];
    }
    if FlagBefore(retries, trials[1..], next, k - 1) && !next {
      var j :| 0 <= j < k - 1 && ReachesInit(retries, trials[1..][j].attempt) && !trials[1..][j].attempt.initOk;
      assert trials[j + 1] == trials[1..][j];
    }
  }

  lemma ConnectsShift(retries: nat, trials: seq<Trial>, workOn: bool, j: nat)
    requires 0 < j < |trials|
    ensures var next := Connect(retries, trials[0].attempt, workOn).workOn;
            && (ConnectsAt(retries, trials, workOn, j) <==> ConnectsAt(retries, trials[1..], next, j - 1))
            && (Undone(retries, trials, workOn, j) <==> Undone(retries, trials[1..], next, j - 1))
  {
    FlagShift(retries, trials, workOn, j);
  }

  lemma ReachedShift(retries: nat, trials: seq<Trial>, workOn: bool, k: nat)
    requires 0 < k && trials != []
    ensures var next := Connect(retries, trials[0].attempt, workOn).workOn;
            Reached(retries, trials, workOn, k) <==>
              Undone(retries, trials, workOn, 0) && Reached(retries, trials[1..], next, k - 1)
  {
    var next := Connect(retries, trials[0].attempt, workOn).workOn;
    forall j: nat | 0 < j < |trials|
      ensures Undone(retries, trials, workOn, j) <==> Undone(retries, trials[1..], next, j - 1)
    {
      ConnectsShift(retries, trials, workOn, j);
    }
    if Undone(retries, trials, workOn, 0) && Reached(retries, trials[1..], next, k - 1) {
      forall j: nat | j < k ensures Undone(retries, trials, workOn, j) {
        if j > 0 {
          assert Undone(retries, trials[1..], next, j - 1);
        }
      }
    }
    if Reached(retries, trials, workOn, k) {
      forall j: nat | j < k - 1 ensures Undone(retries, trials[1..], next, j) {
        assert Undone(retries, trials, workOn, j + 1);
      }
    }
  }

  lemma FirstSuccessShift(retries: nat, trials: seq<Trial>, workOn: bool, k: nat)
    requires 0 < k && trials != []
    ensures var o := Connect(retries, trials[0].attempt, workOn);
            FirstSuccess(retries, trials, workOn, k) <==>
              trials[0].createOk && !o.ok && trials[0].destroyOk && FirstSuccess(retries, trials[1..], o.workOn, k - 1)
  {
    if k < |trials| {
      ConnectsShift(retries, trials, workOn, k);
    }
    ReachedShift(retries, trials, workOn, k);
  }

  /**
   * The retry connects exactly when some trial is a first success, and then has created one more than it
   * destroyed.
   */
  lemma {:induction false} RetryIsFirstSuccess(retries: nat, trials: seq<Trial>, workOn: bool)
    ensures Retry(retries, trials, workOn).stop.Connected? <==>
            exists k: nat :: FirstSuccess(retries, trials, workOn, k)
    ensures forall k: nat | FirstSuccess(retries, trials, workOn, k) ::
              Retry(retries, trials, workOn).creates == k + 1 && Retry(retries, trials, workOn).destroys == k
    decreases |trials|
  {
    if trials != [] {
      var o := Connect(retries, trials[0].attempt, workOn);
      assert FirstSuccess(retries, trials, workOn, 0) <==> trials[0].createOk && o.ok;
      forall k: nat | k > 0
        ensures FirstSuccess(retries, trials, workOn, k)
           <==> trials[0].createOk && !o.ok && trials[0].destroyOk
                && FirstSuccess(retries, trials[1..], o.workOn, k - 1)
      {
        FirstSuccessShift(retries, trials, workOn, k);
      }
      RetryIsFirstSuccess(retries, trials[1..], o.workOn);
      if exists k: nat :: FirstSuccess(retries, trials[1..], o.workOn, k) {
        var k: nat :| FirstSuccess(retries, trials[1..], o.workOn, k);
        assert k + 1 - 1 == k;
        assert trials[0].createOk && !o.ok && trials[0].destroyOk ==> FirstSuccess(retries, trials, workOn, k + 1);
      }
    }
  }

  /**
   * Resources: one creation is not undone exactly when the retry connected or could not destroy; all
   * are undone when it ran out of trials or could not create.
   */
  lemma {:induction false} RetryBalance(retries: nat, trials: seq<Trial>, workOn: bool)
    ensures var r := Retry(retries, trials, workOn);
            && r.creates - r.destroys == (if r.stop.Connected? || r.stop.DestroyFailed? then 1 else 0)
            && r.creates <= |trials| && (r.stop.Exhausted? ==> r.creates == |trials|)
    decreases |trials|
  {
    if trials != [] {
      RetryBalance(retries, trials[1..], Connect(retries, trials[0].attempt, workOn).workOn);
    }
  }

  /**
   * How the retry ends at the trial it reaches: creation refused, connected, destruction refused, or out of
   * trials, each with its number of creations and destructions.
   */
  lemma {:induction false} RetryEndsAt(retries: nat, trials: seq<Trial>, workOn: bool, k: nat)
    requires Reached(retries, trials, workOn, k)
    ensures var r := Retry(retries, trials, workOn);
            if k == |trials| then r.stop == Exhausted && r.creates == r.destroys == k
            else if !trials[k].createOk then r.stop == CreateFailed && r.creates == r.destroys == k
            else if ConnectsAt(retries, trials, workOn, k)
            then r.stop == Connected && r.creates == k + 1 && r.destroys == k
            else !trials[k].destroyOk ==> r.stop == DestroyFailed && r.creates == k + 1 && r.destroys == k
    decreases k
  {
    if k > 0 {
      var next := Connect(retries, trials[0].attempt, workOn).workOn;
      ReachedShift(retries, trials, workOn, k);
      RetryEndsAt(retries, trials[1..], next, k - 1);
      if k < |trials| {
        ConnectsShift(retries, trials, workOn, k);
      }
    }
  }

  lemma OneMore(k: nat, budget: nat, calls: nat, rest: nat)
    requires calls <= budget && rest <= k * budget
    ensures rest + calls <= (k + 1) * budget
  {
  }

  /** The resolve calls of a whole retry: at most the budget of one trial for each trial. */
  lemma {:induction false} CallsInAll(retries: nat, trials: seq<Trial>, workOn: bool)
    ensures Retry(retries, trials, workOn).calls <= |trials| * (retries + 1)
    decreases |trials|
  {
    if trials != [] {
      var o := Connect(retries, trials[0].attempt, workOn);
      var rest := Retry(retries, trials[1..], o.workOn);
      CallsBounded(retries, trials[0].attempt, workOn);
      CallsInAll(retries, trials[1..], o.workOn);
      OneMore(|trials| - 1, retries + 1, o.addrCalls + o.routeCalls, rest.calls);
      assert 0 <= (|trials| - 1) * (retries + 1) <= |trials| * (retries + 1);
    }
  }

  /**
   * Once creating a context has failed, no later trial posts a receive: the flag it left on says there is no
   * need.
   */
  lemma NoReceiveAfterInitFailure(retries: nat, trials: seq<Trial>, workOn: bool, j: nat, k: nat)
    requires j < k < |trials| && ReachesInit(retries, trials[j].attempt) && !trials[j].attempt.initOk
    ensures Connect(retries, trials[k].attempt, FlagBefore(retries, trials, workOn, k)).recvPosts == 0
  {
    ReceivePostedWhenOff(retries, trials[k].attempt, FlagBefore(retries, trials, workOn, k));
  }

  /** `retry_rdma_connect`, over a session whose channel is made anew by each creation. */
  method RetryConnect(s: Session, trials: seq<Trial>) returns (ok: bool, creates: nat, destroys: nat)
    requires |trials| == 10 && s.acked == s.taken
    modifies s
    ensures var r := Retry(s.retries, trials, old(s.workOn));
            && ok == r.stop.Connected? && creates == r.creates && destroys == r.destroys && s.workOn == r.workOn
            && s.addrCalls + s.routeCalls == old(s.addrCalls + s.routeCalls) + r.calls
            && s.acked == s.taken
    ensures creates <= 10 && (ok ==> creates == destroys + 1)
  {
    creates, destroys := 0, 0;
    assert trials[0..] == trials;
    for i := 0 to MAX_RETRIES
      invariant creates == destroys == i && s.acked == s.taken
      invariant s.addrCalls + s.routeCalls >= old(s.addrCalls + s.routeCalls)
      invariant var done := Retry(s.retries, trials[i..], s.workOn);
                Retry(s.retries, trials, old(s.workOn))
                  == Result(done.stop, done.creates + i, done.destroys + i,
                            done.calls + s.addrCalls + s.routeCalls - old(s.addrCalls + s.routeCalls), done.workOn)
    {
      assert trials[i..][1..] == trials[i + 1..];
      if !trials[i].createOk {
        return false, creates, destroys;
      }
      creates := creates + 1;
      s.replies := trials[i].attempt.replies;
      ok := s.ClientConnect(trials[i].attempt);
      if ok {
        return;
      }
      if !trials[i].destroyOk {
        return;
      }
      destroys := destroys + 1;
    }
    ok := false;
  }
}
