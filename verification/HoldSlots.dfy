/** The budget of long-poll holds in one process: one per bot, a fixed number in all. Acquiring marks the
    bot under a mutex and then tries the semaphore; other requests run between any two of these steps. */
module HoldSlots {
  datatype Phase = Idle | Marked(bot: string) | Holding(bot: string) | Leaving(bot: string)

  /** eventHoldPerBot, the semaphore's fill, and the requests. */
  datatype System = System(perBot: set<string>, taken: nat, requests: map<nat, Phase>)

  datatype Step =
    | Mark(r: nat, bot: string)
    | TakeSlot(r: nat)
    | FreeSlot(r: nat)
    | Unmark(r: nat)

  predicate Enabled(y: System, s: Step) {
    match s
    case Mark(r, _) => r in y.requests && y.requests[r].Idle?
    case TakeSlot(r) => r in y.requests && y.requests[r].Marked?
    case FreeSlot(r) => r in y.requests && y.requests[r].Holding? && y.taken > 0
    case Unmark(r) => r in y.requests && y.requests[r].Leaving?
  }

  /** acquireEventHold and its release function, step by step; a refused request is Idle again. */
  function Apply(y: System, s: Step, cap: nat): System
    requires Enabled(y, s)
  {
    match s
    case Mark(r, bot) =>
      if bot in y.perBot then y
      else System(y.perBot + {bot}, y.taken, y.requests[r := Marked(bot)])
    case TakeSlot(r) =>
      var bot := y.requests[r].bot;
      if y.taken < cap then System(y.perBot, y.taken + 1, y.requests[r := Holding(bot)])
      else System(y.perBot, y.taken, y.requests[r := Leaving(bot)])
    case FreeSlot(r) => System(y.perBot, y.taken - 1, y.requests[r := Leaving(y.requests[r].bot)])
    case Unmark(r) => System(y.perBot - {y.requests[r].bot}, y.taken, y.requests[r := Idle])
  }

  function Holders(y: System): set<nat> {
    set r | r in y.requests && y.requests[r].Holding?
  }

  predicate Owns(y: System, r: nat, bot: string) {
    r in y.requests && !y.requests[r].Idle? && y.requests[r].bot == bot
  }

  /** The marked bots are those of the requests under way, one request each. */
  ghost predicate Marks(y: System) {
    && (forall r, bot :: Owns(y, r, bot) ==> bot in y.perBot)
    && (forall q, r, bot :: Owns(y, q, bot) && Owns(y, r, bot) ==> q == r)
    && (forall bot :: bot in y.perBot ==> exists r :: Owns(y, r, bot))
  }

  ghost predicate Inv(y: System, cap: nat) {
    y.taken == |Holders(y)| <= cap && Marks(y)
  }

  lemma StepKeepsCount(y: System, s: Step, cap: nat)
    requires y.taken == |Holders(y)| <= cap && Enabled(y, s)
    ensures var z := Apply(y, s, cap); z.taken == |Holders(z)| <= cap
  {
    var z := Apply(y, s, cap);
    if s.TakeSlot? && y.taken < cap {
      assert Holders(z) == Holders(y) + {s.r};
    } else if s.FreeSlot? {
      assert Holders(z) == Holders(y) - {s.r};
    } else {
      assert Holders(z) == Holders(y);
    }
  }

  lemma MarkKeepsMarks(y: System, r: nat, bot: string, cap: nat)
    requires Marks(y) && Enabled(y, Mark(r, bot))
    ensures Marks(Apply(y, Mark(r, bot), cap))
  {
    if bot !in y.perBot {
      var z := Apply(y, Mark(r, bot), cap);
      assert forall q, b :: Owns(z, q, b) <==> Owns(y, q, b) || (q == r && b == bot);
      assert Owns(z, r, bot);
      hide Owns;
    }
  }

  lemma UnmarkKeepsMarks(y: System, r: nat, cap: nat)
    requires Marks(y) && Enabled(y, Unmark(r))
    ensures Marks(Apply(y, Unmark(r), cap))
  {
    var z := Apply(y, Unmark(r), cap);
    assert Owns(y, r, y.requests[r].bot);
    assert forall q, b :: Owns(z, q, b) <==> Owns(y, q, b) && q != r;
    assert forall b :: Owns(y, r, b) ==> b == y.requests[r].bot;
    hide Owns;
  }

  lemma SlotKeepsMarks(y: System, s: Step, cap: nat)
    requires Marks(y) && Enabled(y, s) && (s.TakeSlot? || s.FreeSlot?)
    ensures Marks(Apply(y, s, cap))
  {
    var z := Apply(y, s, cap);
    assert forall q, b :: Owns(z, q, b) <==> Owns(y, q, b);
    hide Owns;
  }

  lemma StepKeepsInv(y: System, s: Step, cap: nat)
    requires Inv(y, cap) && Enabled(y, s)
    ensures Inv(Apply(y, s, cap), cap)
  {
    StepKeepsCount(y, s, cap);
    hide Marks;
    match s
    case Mark(r, bot) => MarkKeepsMarks(y, r, bot, cap);
    case Unmark(r) => UnmarkKeepsMarks(y, r, cap);
    case _ => SlotKeepsMarks(y, s, cap);
  }

  ghost predicate Legal(y: System, steps: seq<Step>, cap: nat)
    decreases |steps|
  {
    steps == [] || (Enabled(y, steps[0]) && Legal(Apply(y, steps[0], cap), steps[1..], cap))
  }

  ghost function Exec(y: System, steps: seq<Step>, cap: nat): System
    requires Legal(y, steps, cap)
    decreases |steps|
  {
    if steps == [] then y else Exec(Apply(y, steps[0], cap), steps[1..], cap)
  }

  lemma {:induction false} RunKeepsInv(y: System, steps: seq<Step>, cap: nat)
    requires Inv(y, cap) && Legal(y, steps, cap)
    ensures Inv(Exec(y, steps, cap), cap)
    decreases |steps|
  {
    if steps != [] {
      StepKeepsInv(y, steps[0], cap);
      RunKeepsInv(Apply(y, steps[0], cap), steps[1..], cap);
    }
  }

  /** However requests interleave: at most cap holds, at most one per bot, and when every request is idle
      both budgets are whole again. */
  lemma HoldsAreBounded(steps: seq<Step>, cap: nat, idle: map<nat, Phase>)
    requires forall r :: r in idle ==> idle[r].Idle?
    requires Legal(System({}, 0, idle), steps, cap)
    ensures var z := Exec(System({}, 0, idle), steps, cap);
            && |Holders(z)| <= cap
            && (forall q, r :: q in Holders(z) && r in Holders(z) && q != r ==> z.requests[q].bot != z.requests[r].bot)
            && ((forall r :: r in z.requests ==> z.requests[r].Idle?) ==> z.perBot == {} && z.taken == 0)
  {
    var y := System({}, 0, idle);
    assert Holders(y) == {};
    RunKeepsInv(y, steps, cap);
    var z := Exec(y, steps, cap);
    forall q, r | q in Holders(z) && r in Holders(z) && q != r ensures z.requests[q].bot != z.requests[r].bot {
      assert Owns(z, q, z.requests[q].bot) && Owns(z, r, z.requests[r].bot);
    }
    if forall r :: r in z.requests ==> z.requests[r].Idle? {
      assert Holders(z) == {};
    }
  }

  /** However requests interleaved so far: a bot is marked exactly when no other request of it is under way,
      a marked request holds exactly when fewer than cap holds are out, and a refused one leaves the
      budget as it was. */
  lemma HoldsAreGranted(steps: seq<Step>, cap: nat, idle: map<nat, Phase>, s: Step)
    requires forall r :: r in idle ==> idle[r].Idle?
    requires Legal(System({}, 0, idle), steps, cap) && Enabled(Exec(System({}, 0, idle), steps, cap), s)
    requires s.Mark? || s.TakeSlot?
    ensures var y := Exec(System({}, 0, idle), steps, cap);
            var z := Apply(y, s, cap);
            && z.requests.Keys == y.requests.Keys && (forall r :: r in y.requests && r != s.r ==> z.requests[r] == y.requests[r])
            && if s.Mark? then
                 && z.taken == y.taken
                 && z.requests[s.r] == if exists r :: Owns(y, r, s.bot) then Idle else Marked(s.bot)
               else if |Holders(y)| < cap then
                 z.requests[s.r] == Holding(y.requests[s.r].bot) && z.taken == y.taken + 1
               else
                 z.requests[s.r] == Leaving(y.requests[s.r].bot) && z.taken == y.taken
  {
    var init := System({}, 0, idle);
    assert Holders(init) == {};
    RunKeepsInv(init, steps, cap);
    var y := Exec(init, steps, cap);
    if s.Mark? && exists r :: Owns(y, r, s.bot) {
      var r :| Owns(y, r, s.bot);
    }
  }
}
