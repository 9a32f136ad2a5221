/**
 * Dispatch through towers of transports. The class chain of a tower is, from the top,
 * Derived(k), Layer(k), ..., Derived(0), Layer(0), then TTransportDefaults (if the tower is
 * built on it), then TTransport: Layer(k) is TVirtualTransport for Derived(k), derived from
 * the class below it. A non-virtual call goes to the nearest declaration at or above its
 * static class; a virtual one to the topmost overrider of the object.
 */
module Dispatch {
  datatype Member = Read | ReadAll | Write | Borrow | Consume

  /** What each derived class declares itself, and whether the tower stands on TTransportDefaults. */
  datatype Tower = Tower(declares: seq<set<Member>>, onDefaults: bool)

  datatype Class = TTransport | TTransportDefaults | Layer(k: nat) | Derived(k: nat)

  /** The code a call ends in. */
  datatype Code = Own(k: nat, m: Member)      // declared by Derived(k)
                | BaseDefault(m: Member)      // TTransport's m_virt: throws, or returns null for borrow
                | LoopOver(c: Class)          // the helper template, reading through static class c

  /** A call under way: looking a member up from a class, making a virtual call, or having reached its code. */
  datatype Call = Lookup(c: Class, m: Member) | Virtual(m: Member) | BaseVirt(m: Member) | Reached(code: Code)

  function Top(t: Tower): Class
  {
    if t.declares == [] then (if t.onDefaults then TTransportDefaults else TTransport)
    else Derived(|t.declares| - 1)
  }

  ghost predicate InTower(t: Tower, c: Class)
  {
    match c
    case TTransport => true
    case TTransportDefaults => t.onDefaults
    case Layer(k) => k < |t.declares|
    case Derived(k) => k < |t.declares|
  }

  function Parent(t: Tower, c: Class): Class
  {
    match c
    case Derived(k) => Layer(k)
    case Layer(k) => if k > 0 then Derived(k - 1) else if t.onDefaults then TTransportDefaults else TTransport
    case _ => TTransport
  }

  predicate Declares(t: Tower, c: Class, m: Member)
  {
    match c
    case TTransport => true
    case TTransportDefaults => true
    case Layer(_) => m == ReadAll
    case Derived(k) => k < |t.declares| && m in t.declares[k]
  }

  /** One step of a call. */
  function Next(t: Tower, call: Call): Call
  {
    match call
    case Lookup(c, m) =>
      if !Declares(t, c, m) then Lookup(Parent(t, c), m)
      else (match c
            case TTransport => Virtual(m)                       // read() { return read_virt(); } and so on
            case TTransportDefaults => BaseVirt(m)              // this->TTransport::m_virt(), non-virtually
            case Layer(k) => Reached(LoopOver(Derived(k)))      // readAll over static_cast<Transport_*>(this)
            case Derived(k) => Reached(Own(k, m)))
    case Virtual(m) =>
      if t.declares == [] then BaseVirt(m) else Lookup(Top(t), m)  // the topmost layer casts to its derived class
    case BaseVirt(m) =>
      if m == ReadAll then Reached(LoopOver(TTransport)) else Reached(BaseDefault(m))
    case Reached(_) => call
  }

  function After(t: Tower, call: Call, steps: nat): Call
    decreases steps
  {
    if steps == 0 then call else After(t, Next(t, call), steps - 1)
  }

  /** The call ends, in the given code. */
  ghost predicate EndsIn(t: Tower, call: Call, code: Code)
  {
    exists steps: nat :: After(t, call, steps) == Reached(code)
  }

  lemma {:induction false} AfterSum(t: Tower, call: Call, x: nat, y: nat)
    ensures After(t, call, x + y) == After(t, After(t, call, x), y)
    decreases x
  {
    if x > 0 { AfterSum(t, Next(t, call), x - 1, y); }
  }

  lemma {:induction false} StaysReached(t: Tower, code: Code, steps: nat)
    ensures After(t, Reached(code), steps) == Reached(code)
    decreases steps
  {
    if steps > 0 { StaysReached(t, code, steps - 1); }
  }

  lemma FewSteps(t: Tower, call: Call)
    ensures After(t, call, 1) == Next(t, call) && After(t, call, 2) == Next(t, Next(t, call))
    ensures After(t, call, 3) == Next(t, Next(t, Next(t, call)))
  {
    assert After(t, call, 3) == After(t, Next(t, call), 2);
    assert After(t, Next(t, call), 2) == After(t, Next(t, Next(t, call)), 1);
  }

  /** A call ends in one code at most. */
  lemma EndsOnce(t: Tower, call: Call, code: Code, code': Code)
    requires EndsIn(t, call, code) && EndsIn(t, call, code')
    ensures code == code'
  {
    var x: nat :| After(t, call, x) == Reached(code);
    var y: nat :| After(t, call, y) == Reached(code');
    AfterSum(t, call, x, y);
    AfterSum(t, call, y, x);
    StaysReached(t, code, y);
    StaysReached(t, code', x);
  }

  lemma StepEnds(t: Tower, call: Call, code: Code)
    ensures EndsIn(t, Next(t, call), code) ==> EndsIn(t, call, code)
  {
    if EndsIn(t, Next(t, call), code) {
      var x: nat :| After(t, Next(t, call), x) == Reached(code);
      assert After(t, call, x + 1) == Reached(code);
    }
  }

  /** What a call comes to: code that is not the helper loop, or the loop over the given code of read. */
  datatype Behaviour = Plain(code: Code) | Looping(read: Code)

  /** The call ends so; a loop counts (for a positive length) only when the read it makes ends too. */
  ghost predicate BehavesAs(t: Tower, call: Call, b: Behaviour)
  {
    match b
    case Plain(code) => !code.LoopOver? && EndsIn(t, call, code)
    case Looping(read) => exists c :: EndsIn(t, call, LoopOver(c)) && EndsIn(t, Lookup(c, Read), read)
  }

  ghost predicate Ends(t: Tower, call: Call)
  {
    exists b :: BehavesAs(t, call, b)
  }

  /** A call comes to one thing at most. */
  lemma BehavesOnce(t: Tower, call: Call, b: Behaviour, b': Behaviour)
    requires BehavesAs(t, call, b) && BehavesAs(t, call, b')
    ensures b == b'
  {
    match (b, b')
    case (Plain(x), Plain(y)) => EndsOnce(t, call, x, y);
    case (Plain(x), Looping(y)) =>
      var c :| EndsIn(t, call, LoopOver(c)) && EndsIn(t, Lookup(c, Read), y);
      EndsOnce(t, call, x, LoopOver(c));
    case (Looping(x), Plain(y)) =>
      var c :| EndsIn(t, call, LoopOver(c)) && EndsIn(t, Lookup(c, Read), x);
      EndsOnce(t, call, LoopOver(c), y);
    case (Looping(x), Looping(y)) =>
      var c :| EndsIn(t, call, LoopOver(c)) && EndsIn(t, Lookup(c, Read), x);
      var d :| EndsIn(t, call, LoopOver(d)) && EndsIn(t, Lookup(d, Read), y);
      EndsOnce(t, call, LoopOver(c), LoopOver(d));
      EndsOnce(t, Lookup(c, Read), x, y);
  }

  /** The topmost of the first n derived classes that declares m, plus one; 0 if none does. */
  function Owner(t: Tower, m: Member, n: nat): nat
    requires n <= |t.declares|
  {
    if n == 0 then 0 else if m in t.declares[n - 1] then n else Owner(t, m, n - 1)
  }

  /** What a call through Derived(n-1) is meant to reach: the nearest declaration, or the default of the base. */
  function Meant(t: Tower, m: Member, n: nat): Code
    requires n <= |t.declares|
  {
    if m == ReadAll then
      if n == 0 then LoopOver(TTransport)
      else if ReadAll in t.declares[n - 1] then Own(n - 1, ReadAll)
      else LoopOver(Derived(n - 1))
    else
      var k := Owner(t, m, n); if k > 0 then Own(k - 1, m) else BaseDefault(m)
  }

  /** The class a lookup starts from when only the lowest n derived classes are considered. */
  function Static(t: Tower, n: nat): Class
  {
    if n > 0 then Derived(n - 1) else if t.onDefaults then TTransportDefaults else TTransport
  }

  /** On TTransportDefaults every lookup ends, in the code meant, from whichever class of the tower it starts. */
  lemma {:induction false} LookupEnds(t: Tower, m: Member, n: nat)
    requires t.onDefaults && n <= |t.declares|
    ensures EndsIn(t, Lookup(Static(t, n), m), Meant(t, m, n))
    decreases n
  {
    var call := Lookup(Static(t, n), m);
    if n == 0 {
      FewSteps(t, call);
      assert After(t, call, 2) == Reached(Meant(t, m, 0));
    } else if m in t.declares[n - 1] {
      assert After(t, call, 1) == Reached(Meant(t, m, n));
    } else if m == ReadAll {
      FewSteps(t, call);
      assert After(t, call, 2) == Reached(Meant(t, m, n));
    } else {
      LookupEnds(t, m, n - 1);
      assert Next(t, call) == Lookup(Layer(n - 1), m);
      assert Next(t, Next(t, call)) == Lookup(Static(t, n - 1), m);
      StepEnds(t, Next(t, call), Meant(t, m, n));
      StepEnds(t, call, Meant(t, m, n));
    }
  }

  /** Through the base class or through the derived class, a call ends in the same code, the one meant. */
  lemma BaseAndDerivedAgree(t: Tower, m: Member)
    requires t.onDefaults
    ensures EndsIn(t, Lookup(Top(t), m), Meant(t, m, |t.declares|))
    ensures EndsIn(t, Lookup(TTransport, m), Meant(t, m, |t.declares|))
  {
    LookupEnds(t, m, |t.declares|);
    var call := Lookup(TTransport, m);
    if t.declares == [] {
      FewSteps(t, call);
      assert After(t, call, 3) == Reached(Meant(t, m, 0));
    } else {
      assert Next(t, Next(t, call)) == Lookup(Top(t), m);
      StepEnds(t, Next(t, call), Meant(t, m, |t.declares|));
      StepEnds(t, call, Meant(t, m, |t.declares|));
    }
  }

  /** Owner finds the topmost declarer among the first n. */
  lemma {:induction false} OwnerIsTopmost(t: Tower, m: Member, n: nat)
    requires n <= |t.declares|
    ensures var k := Owner(t, m, n);
            && k <= n && (k > 0 ==> m in t.declares[k - 1])
            && forall j | k <= j < n :: m !in t.declares[j]
    decreases n
  {
    if n > 0 && m !in t.declares[n - 1] { OwnerIsTopmost(t, m, n - 1); }
  }

  /**
   * What a call through Derived(n-1) comes to on TTransportDefaults. Through TTransportDefaults itself the
   * loop of readAll reads through TTransport, and so virtually.
   */
  function MeantBehaviour(t: Tower, m: Member, n: nat): Behaviour
    requires n <= |t.declares|
  {
    if m != ReadAll then Plain(Meant(t, m, n))
    else if n == 0 then Looping(Meant(t, Read, |t.declares|))
    else if ReadAll in t.declares[n - 1] then Plain(Own(n - 1, ReadAll))
    else Looping(Meant(t, Read, n))
  }

  lemma BehavesAsMeant(t: Tower, m: Member, n: nat)
    requires t.onDefaults && n <= |t.declares|
    ensures BehavesAs(t, Lookup(Static(t, n), m), MeantBehaviour(t, m, n))
  {
    LookupEnds(t, m, n);
    LookupEnds(t, Read, n);
    BaseAndDerivedAgree(t, Read);
  }

  /** No class from the n-th derived one up declares m. */
  predicate NoneAbove(t: Tower, m: Member, n: nat)
    requires n <= |t.declares|
  {
    forall k | n <= k < |t.declares| :: m !in t.declares[k]
  }

  /**
   * When a call through the n-th derived class (0: through TTransportDefaults) comes to the same as one through
   * the most derived. For readAll the topmost layer stands in front of every readAll below it, so only the class
   * called through and the topmost one must declare none; then the reads of the two loops must agree.
   */
  predicate SameFromBelow(t: Tower, m: Member, n: nat)
    requires n <= |t.declares|
  {
    if m != ReadAll then NoneAbove(t, m, n)
    else
      n == |t.declares|
      || (ReadAll !in t.declares[|t.declares| - 1]
          && (n == 0 || (ReadAll !in t.declares[n - 1] && NoneAbove(t, Read, n))))
  }

  lemma MeantFromBelow(t: Tower, m: Member, n: nat)
    requires n <= |t.declares| && m != ReadAll
    ensures Meant(t, m, n) == Meant(t, m, |t.declares|) <==> NoneAbove(t, m, n)
  {
    OwnerIsTopmost(t, m, n);
    OwnerIsTopmost(t, m, |t.declares|);
  }

  /** Called as a lower class, an object does what its most derived class does exactly under that condition. */
  lemma PartialViewAgrees(t: Tower, m: Member, n: nat)
    requires t.onDefaults && n <= |t.declares|
    ensures (exists b :: BehavesAs(t, Lookup(Static(t, n), m), b) && BehavesAs(t, Lookup(Top(t), m), b))
       <==> SameFromBelow(t, m, n)
  {
    var top := |t.declares|;
    var x, y := MeantBehaviour(t, m, n), MeantBehaviour(t, m, top);
    BehavesAsMeant(t, m, n);
    BehavesAsMeant(t, m, top);
    forall b | BehavesAs(t, Lookup(Static(t, n), m), b) && BehavesAs(t, Lookup(Top(t), m), b) ensures x == b == y {
      BehavesOnce(t, Lookup(Static(t, n), m), b, x);
      BehavesOnce(t, Lookup(Top(t), m), b, y);
    }
    MeantFromBelow(t, if m == ReadAll then Read else m, n);
    assert x == y <==> SameFromBelow(t, m, n);
  }

  /**
   * From the base, and from every class of the tower that has no declarer in between, a call reaches the nearest
   * declaration of the member, here in the k-th derived class. Only readAll stops earlier, at a layer's own.
   */
  lemma ReachesNearestDeclaration(t: Tower, m: Member, n: nat, k: nat)
    requires t.onDefaults && k < n <= |t.declares| && m in t.declares[k]
    requires forall j | k < j < n :: m !in t.declares[j]
    requires m == ReadAll ==> k == n - 1
    ensures EndsIn(t, Lookup(Derived(n - 1), m), Own(k, m))
    ensures n == |t.declares| ==> EndsIn(t, Lookup(TTransport, m), Own(k, m))
  {
    OwnerIsTopmost(t, m, n);
    LookupEnds(t, m, n);
    BaseAndDerivedAgree(t, m);
  }

  /** Where nothing declares it, a call reaches the default of the base. */
  lemma ReachesDefault(t: Tower, m: Member, n: nat)
    requires t.onDefaults && n <= |t.declares| && m != ReadAll && forall j | 0 <= j < n :: m !in t.declares[j]
    ensures EndsIn(t, Lookup(if n > 0 then Derived(n - 1) else TTransportDefaults, m), BaseDefault(m))
    ensures n == |t.declares| ==> EndsIn(t, Lookup(TTransport, m), BaseDefault(m))
  {
    OwnerIsTopmost(t, m, n);
    LookupEnds(t, m, n);
    BaseAndDerivedAgree(t, m);
  }

  /**
   * A readAll not declared by the class it is called through is that class's loop, reading through that class;
   * through TTransportDefaults it is the loop of the base.
   */
  lemma ReachesOwnLoop(t: Tower, n: nat)
    requires t.onDefaults && n <= |t.declares| && (n > 0 ==> ReadAll !in t.declares[n - 1])
    ensures var (c, loop) := if n > 0 then (Derived(n - 1), Derived(n - 1)) else (TTransportDefaults, TTransport);
            && EndsIn(t, Lookup(c, ReadAll), LoopOver(loop))
            && (n == |t.declares| ==> EndsIn(t, Lookup(TTransport, ReadAll), LoopOver(loop)))
  {
    LookupEnds(t, ReadAll, n);
    BaseAndDerivedAgree(t, ReadAll);
  }

  /** A default readAll, by every route, is the loop over the read the most derived class means. */
  lemma DefaultReadAllReadsMostDerived(t: Tower, c: Class)
    requires t.onDefaults && Meant(t, ReadAll, |t.declares|) == LoopOver(c)
    ensures EndsIn(t, Lookup(c, Read), Meant(t, Read, |t.declares|))
  {
    BaseAndDerivedAgree(t, Read);
  }

  /**
   * A readAll of a class further down is not used when the topmost class declares none: its layer's loop
   * stands in front.
   */
  lemma LowerReadAllHidden(t: Tower, k: nat)
    requires t.onDefaults && k + 1 < |t.declares|
    requires ReadAll in t.declares[k] && ReadAll !in t.declares[|t.declares| - 1]
    ensures EndsIn(t, Lookup(TTransport, ReadAll), LoopOver(Top(t)))
    ensures !EndsIn(t, Lookup(TTransport, ReadAll), Own(k, ReadAll))
  {
    BaseAndDerivedAgree(t, ReadAll);
    if EndsIn(t, Lookup(TTransport, ReadAll), Own(k, ReadAll)) {
      EndsOnce(t, Lookup(TTransport, ReadAll), LoopOver(Top(t)), Own(k, ReadAll));
    }
  }

  // ---- what TTransportDefaults is there for ----

  /** Going round: back in the tower or in a virtual call, with the same member. */
  ghost predicate Circling(t: Tower, m: Member, call: Call)
  {
    call == Virtual(m) || (call.Lookup? && call.m == m && InTower(t, call.c))
  }

  lemma {:induction false} CirclesForever(t: Tower, m: Member, call: Call, steps: nat)
    requires !t.onDefaults && t.declares != [] && m != ReadAll && Owner(t, m, |t.declares|) == 0
    requires Circling(t, m, call)
    ensures Circling(t, m, After(t, call, steps))
    decreases steps
  {
    if steps > 0 {
      OwnerIsTopmost(t, m, |t.declares|);
      CirclesForever(t, m, Next(t, call), steps - 1);
    }
  }

  /** Without TTransportDefaults a lookup still ends where something in the tower declares the member. */
  lemma {:induction false} LookupEndsBare(t: Tower, m: Member, n: nat)
    requires !t.onDefaults && 0 < n <= |t.declares| && (m == ReadAll || Owner(t, m, n) > 0)
    ensures EndsIn(t, Lookup(Static(t, n), m), Meant(t, m, n))
    decreases n
  {
    var call := Lookup(Static(t, n), m);
    FewSteps(t, call);
    if m in t.declares[n - 1] {
      assert After(t, call, 1) == Reached(Meant(t, m, n));
    } else if m == ReadAll {
      assert After(t, call, 2) == Reached(Meant(t, m, n));
    } else {
      LookupEndsBare(t, m, n - 1);
      assert Next(t, Next(t, call)) == Lookup(Static(t, n - 1), m);
      StepEnds(t, Next(t, call), Meant(t, m, n));
      StepEnds(t, call, Meant(t, m, n));
    }
  }

  /** On a bare tower nothing that the tower does not supply is ever reached, from any of its classes. */
  lemma NeverEndsBare(t: Tower, m: Member, c: Class, code: Code)
    requires !t.onDefaults && t.declares != [] && m != ReadAll && Owner(t, m, |t.declares|) == 0 && InTower(t, c)
    ensures !EndsIn(t, Lookup(c, m), code)
  {
    forall steps: nat ensures After(t, Lookup(c, m), steps) != Reached(code) {
      CirclesForever(t, m, Lookup(c, m), steps);
    }
  }

  /** The tower answers a call of m: it declares m; for readAll its top class does, or the tower declares read. */
  predicate Supplied(t: Tower, m: Member)
    requires t.declares != []
  {
    if m == ReadAll
    then ReadAll in t.declares[|t.declares| - 1] || Owner(t, Read, |t.declares|) > 0
    else Owner(t, m, |t.declares|) > 0
  }

  /** Through the base a call comes to what it comes to through the derived class. */
  lemma BaseAsDerived(t: Tower, m: Member, code: Code)
    requires t.declares != []
    ensures EndsIn(t, Lookup(Top(t), m), code) ==> EndsIn(t, Lookup(TTransport, m), code)
  {
    var call := Lookup(TTransport, m);
    assert Next(t, Next(t, call)) == Lookup(Top(t), m);
    StepEnds(t, Next(t, call), code);
    StepEnds(t, call, code);
  }

  lemma BareReadAllLoops(t: Tower, c: Class)
    requires !t.onDefaults && t.declares != [] && ReadAll !in t.declares[|t.declares| - 1]
    requires c == TTransport || c == Top(t)
    ensures EndsIn(t, Lookup(c, ReadAll), LoopOver(Top(t)))
    ensures Ends(t, Lookup(c, ReadAll)) <==> Owner(t, Read, |t.declares|) > 0
  {
    var call := Lookup(c, ReadAll);
    LookupEndsBare(t, ReadAll, |t.declares|);
    BaseAsDerived(t, ReadAll, LoopOver(Top(t)));
    if Owner(t, Read, |t.declares|) > 0 {
      LookupEndsBare(t, Read, |t.declares|);
      assert BehavesAs(t, call, Looping(Meant(t, Read, |t.declares|)));
    } else {
      forall b ensures !BehavesAs(t, call, b) {
        if BehavesAs(t, call, b) {
          match b
          case Plain(code) => EndsOnce(t, call, code, LoopOver(Top(t)));
          case Looping(read) =>
            var d :| EndsIn(t, call, LoopOver(d)) && EndsIn(t, Lookup(d, Read), read);
            EndsOnce(t, call, LoopOver(d), LoopOver(Top(t)));
            NeverEndsBare(t, Read, d, read);
        }
      }
    }
  }

  lemma BarePlain(t: Tower, m: Member, c: Class)
    requires !t.onDefaults && t.declares != [] && (m == ReadAll ==> ReadAll in t.declares[|t.declares| - 1])
    requires c == TTransport || c == Top(t)
    ensures Ends(t, Lookup(c, m)) <==> Supplied(t, m)
  {
    var call, n := Lookup(c, m), |t.declares|;
    if Supplied(t, m) {
      LookupEndsBare(t, m, n);
      BaseAsDerived(t, m, Meant(t, m, n));
      assert BehavesAs(t, call, Plain(Meant(t, m, n)));
    } else {
      forall b ensures !BehavesAs(t, call, b) {
        forall code ensures !EndsIn(t, call, code) {
          NeverEndsBare(t, m, c, code);
        }
      }
    }
  }

  /**
   * A call through the base or through the derived class ends, reads of a loop included, exactly when the tower
   * stands on TTransportDefaults, has no layer, or supplies the member.
   */
  lemma EndsExactly(t: Tower, m: Member, c: Class)
    requires c == TTransport || c == Top(t)
    ensures Ends(t, Lookup(c, m)) <==> t.onDefaults || t.declares == [] || Supplied(t, m)
  {
    if t.onDefaults {
      BehavesAsMeant(t, m, |t.declares|);
      BaseAndDerivedAgree(t, m);
      BaseAndDerivedAgree(t, Read);
      assert BehavesAs(t, Lookup(c, m), MeantBehaviour(t, m, |t.declares|));
    } else if t.declares == [] {
      FewSteps(t, Lookup(TTransport, m));
      FewSteps(t, Lookup(TTransport, Read));
      assert After(t, Lookup(TTransport, Read), 3) == Reached(BaseDefault(Read));
      assert EndsIn(t, Lookup(TTransport, Read), BaseDefault(Read));
      assert After(t, Lookup(TTransport, m), 3) == Reached(Meant(t, m, 0));
      assert EndsIn(t, Lookup(TTransport, m), Meant(t, m, 0));
      assert BehavesAs(t, Lookup(TTransport, m),
                       if m == ReadAll then Looping(BaseDefault(Read)) else Plain(BaseDefault(m)));
    } else if m == ReadAll && ReadAll !in t.declares[|t.declares| - 1] {
      BareReadAllLoops(t, c);
    } else {
      BarePlain(t, m, c);
    }
  }

  /** Such a tower: one class that declares nothing, built directly on TTransport, never answers read or readAll. */
  lemma CallsItselfForever()
    ensures var t := Tower([{}], false);
            && !Ends(t, Lookup(TTransport, Read)) && !Ends(t, Lookup(Derived(0), Read))
            && !Ends(t, Lookup(TTransport, ReadAll)) && !Ends(t, Lookup(Derived(0), ReadAll))
            && EndsIn(t, Lookup(TTransport, ReadAll), LoopOver(Derived(0)))
  {
    var t := Tower([{}], false);
    EndsExactly(t, Read, TTransport);
    EndsExactly(t, Read, Derived(0));
    EndsExactly(t, ReadAll, TTransport);
    EndsExactly(t, ReadAll, Derived(0));
    BareReadAllLoops(t, TTransport);
    OwnerIsTopmost(t, Read, 1);
  }
}
