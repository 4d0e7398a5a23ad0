/** The progress watchdog of modules/agentmailgateway/gateway.go: a timer, the goroutines its firings
    start, touches and stops, racing for one mutex. */
module Watchdog {
  import opened Prelude

  /** The fields under the mutex, and the channel. `armed` is when the timer will fire: at the deadline
      or a little later, since the clock is read again. */
  datatype Shared = Shared(deadline: int, armed: Option<int>, stopped: bool, done: bool)

  // ------------------------------------------------------------------------- the critical sections

  function Touched(w: Shared, now: int, timeout: int, slack: nat): Shared {
    if w.stopped then w else w.(deadline := now + timeout, armed := Some(now + timeout + slack))
  }

  datatype Verdict = Quit | Rearm | Expire

  /** What a firing decides under the mutex. */
  function Decide(w: Shared, now: int): Verdict {
    if w.stopped then Quit else if now < w.deadline then Rearm else Expire
  }

  function Expired(w: Shared, now: int, slack: nat): Shared {
    match Decide(w, now)
    case Quit => w
    case Rearm => w.(armed := Some(w.deadline + slack))
    case Expire => w.(stopped := true)
  }

  /** Stop under the mutex; it closes the channel itself exactly when it disarmed a live timer. */
  function Halted(w: Shared): Shared {
    if w.stopped then w else w.(stopped := true, armed := None)
  }

  function Disarms(w: Shared): bool {
    !w.stopped && w.armed.Some?
  }

  class ProgressWatchdog {
    const timeout: int
    var deadline: int
    var armed: Option<int>
    var stopped: bool
    var done: bool

    ghost function State(): Shared
      reads this
    {
      Shared(deadline, armed, stopped, done)
    }

    constructor (timeout: int, now: int, slack: nat)
      ensures this.timeout == timeout && State() == Shared(now + timeout, Some(now + timeout + slack), false, false)
    {
      this.timeout, deadline, armed := timeout, now + timeout, Some(now + timeout + slack);
      stopped, done := false, false;
    }

    /** expire, up to the unlock. */
    method Fire(now: int, slack: nat) returns (verdict: Verdict)
      modifies this
      ensures verdict == Decide(old(State()), now) && State() == Expired(old(State()), now, slack)
      ensures old(stopped) ==> verdict == Quit && State() == old(State())
      ensures !old(stopped) && now < deadline ==> verdict == Rearm && State() == old(State()).(armed := Some(deadline + slack))
      ensures !old(stopped) && deadline <= now ==> verdict == Expire && State() == old(State()).(stopped := true)
    {
      if stopped {
        return Quit;
      }
      var remaining := deadline - now;
      if remaining > 0 {
        armed := Some(now + remaining + slack);
        return Rearm;
      }
      stopped := true;
      return Expire;
    }

    method Touch(now: int, slack: nat)
      modifies this
      ensures State() == Touched(old(State()), now, timeout, slack)
    {
      if !stopped {
        deadline := now + timeout;
        armed := Some(now + timeout + slack);
      }
    }

    /** Stop, up to the unlock. */
    method Stop() returns (stoppedTimer: bool)
      modifies this
      ensures stoppedTimer == Disarms(old(State())) && State() == Halted(old(State()))
    {
      stoppedTimer := false;
      if !stopped {
        stopped := true;
        stoppedTimer := armed.Some?;
        armed := None;
      }
    }

    /** Close once. */
    method Finish()
      modifies this
      ensures State() == old(State()).(done := true)
    {
      done := true;
    }
  }

  // ------------------------------------------------------------------------------ the interleaving

  /** A goroutine started by the timer: before the mutex, about to cancel, cancelling, about to close. */
  datatype Firing = Fired | Decided | Cancelling | Closing

  datatype Stopper = Disarmed | Waiting | Returned

  /** touchedAt is the last effective touch, or the start; cancels counts calls of the callback; late says
      one began after some Stop had returned. */
  datatype System = System(
    w: Shared, now: int, firings: map<nat, Firing>, stoppers: map<nat, Stopper>,
    touchedAt: int, cancels: nat, early: bool, late: bool)

  datatype Step =
    | Wait(until: int)
    | TimerFires(f: nat)
    | Lock(f: nat, slack: nat)
    | CallCancel(f: nat)
    | CancelReturns(f: nat)
    | Finish(f: nat)
    | Touch(slack: nat)
    | Stop(s: nat)
    | StopCloses(s: nat)
    | StopReturns(s: nat)

  predicate Enabled(y: System, e: Step) {
    match e
    case Wait(until) => y.now <= until
    case TimerFires(f) => f !in y.firings && y.w.armed.Some? && y.w.armed.value <= y.now
    case Lock(f, _) => f in y.firings && y.firings[f].Fired?
    case CallCancel(f) => f in y.firings && y.firings[f].Decided?
    case CancelReturns(f) => f in y.firings && y.firings[f].Cancelling?
    case Finish(f) => f in y.firings && y.firings[f].Closing?
    case Touch(_) => true
    case Stop(s) => s !in y.stoppers
    case StopCloses(s) => s in y.stoppers && y.stoppers[s].Disarmed?
    case StopReturns(s) => s in y.stoppers && y.stoppers[s].Waiting? && y.w.done
  }

  predicate SomeReturned(y: System) {
    exists s :: s in y.stoppers && y.stoppers[s].Returned?
  }

  function Apply(y: System, e: Step, timeout: int): System
    requires Enabled(y, e)
  {
    match e
    case Wait(until) => y.(now := until)
    case TimerFires(f) => y.(w := y.w.(armed := None), firings := y.firings[f := Fired])
    case Lock(f, slack) =>
      var w := Expired(y.w, y.now, slack);
      (match Decide(y.w, y.now)
       case Quit => y.(firings := y.firings[f := Closing])
       case Rearm => y.(w := w, firings := y.firings - {f})
       case Expire => y.(w := w, firings := y.firings[f := Decided], early := y.early || y.now < y.touchedAt + timeout))
    case CallCancel(f) =>
      y.(firings := y.firings[f := Cancelling], cancels := y.cancels + 1, late := y.late || SomeReturned(y))
    case CancelReturns(f) => y.(firings := y.firings[f := Closing])
    case Finish(f) => y.(w := y.w.(done := true), firings := y.firings - {f})
    case Touch(slack) =>
      y.(w := Touched(y.w, y.now, timeout, slack), touchedAt := if y.w.stopped then y.touchedAt else y.now)
    case Stop(s) => y.(w := Halted(y.w), stoppers := y.stoppers[s := if Disarms(y.w) then Disarmed else Waiting])
    case StopCloses(s) => y.(w := y.w.(done := true), stoppers := y.stoppers[s := Waiting])
    case StopReturns(s) => y.(stoppers := y.stoppers[s := Returned])
  }

  function Start(now: int, timeout: int, slack: nat): System {
    System(Shared(now + timeout, Some(now + timeout + slack), false, false), now, map[], map[], now, 0, false, false)
  }

  predicate Legal(y: System, steps: seq<Step>, timeout: int)
    decreases |steps|
  {
    steps == [] || (Enabled(y, steps[0]) && Legal(Apply(y, steps[0], timeout), steps[1..], timeout))
  }

  function Run(y: System, steps: seq<Step>, timeout: int): System
    requires Legal(y, steps, timeout)
    decreases |steps|
  {
    if steps == [] then y else Run(Apply(y, steps[0], timeout), steps[1..], timeout)
  }

  // -------------------------------------------------------------------------------- the invariant

  predicate Doomed(y: System, f: nat) {
    f in y.firings && (y.firings[f].Decided? || y.firings[f].Cancelling?)
  }

  predicate SomeDisarmed(y: System) {
    exists s :: s in y.stoppers && y.stoppers[s].Disarmed?
  }

  /** Not stopped: the timer is armed or a firing is on its way; nothing has been cancelled. */
  ghost predicate Ticking(y: System) {
    && (y.w.armed.Some? || y.firings != map[])
    && !y.w.done && y.cancels == 0 && y.stoppers == map[]
    && forall f :: f in y.firings ==> y.firings[f].Fired?
  }

  /** Stopped: at most one firing carries the one cancellation, and somebody will close the channel. */
  ghost predicate Stopping(y: System) {
    && (forall f, g :: Doomed(y, f) && Doomed(y, g) ==> f == g)
    && (forall f :: f in y.firings && y.firings[f].Decided? ==> y.cancels == 0)
    && y.cancels <= 1
    && (!y.w.done ==> y.firings != map[] || SomeDisarmed(y))
    && (SomeReturned(y) ==> y.w.done)
  }

  ghost predicate Inv(y: System, timeout: int) {
    && !y.early && y.w.deadline == y.touchedAt + timeout
    && if y.w.stopped then Stopping(y) else Ticking(y)
  }

  lemma Witnesses(y: System, e: Step, timeout: int)
    requires Enabled(y, e)
    ensures var z := Apply(y, e, timeout);
            && (forall f :: Doomed(z, f) <==>
                  if e.Lock? && f == e.f then Decide(y.w, y.now).Expire?
                  else if (e.CancelReturns? || e.Finish?) && f == e.f then false
                  else Doomed(y, f))
            && (SomeReturned(z) <==> SomeReturned(y) || e.StopReturns?)
            && (SomeDisarmed(y) && !e.StopCloses? ==> SomeDisarmed(z))
            && (e.Stop? && Disarms(y.w) ==> SomeDisarmed(z))
  {
    var z := Apply(y, e, timeout);
    if e.Stop? || e.StopCloses? || e.StopReturns? {
      assert forall s :: s != e.s ==> (s in z.stoppers <==> s in y.stoppers) && (s in y.stoppers ==> z.stoppers[s] == y.stoppers[s]);
      assert e.s in z.stoppers;
      if SomeReturned(y) {
        var s :| s in y.stoppers && y.stoppers[s].Returned?;
        assert z.stoppers[s].Returned?;
      }
      if SomeDisarmed(y) && !e.StopCloses? {
        var s :| s in y.stoppers && y.stoppers[s].Disarmed?;
        assert z.stoppers[s].Disarmed?;
      }
    } else {
      assert z.stoppers == y.stoppers;
    }
  }

  lemma StepKeepsInv(y: System, e: Step, timeout: int)
    requires Inv(y, timeout) && Enabled(y, e)
    ensures Inv(Apply(y, e, timeout), timeout)
  {
    Witnesses(y, e, timeout);
    hide SomeReturned, SomeDisarmed;
    var z := Apply(y, e, timeout);
    if e.CallCancel? {
      assert Doomed(y, e.f);
      assert forall g :: g in y.firings && y.firings[g].Decided? ==> Doomed(y, g);
    }
    if (e.Lock? && !Decide(y.w, y.now).Rearm?) || e.TimerFires? || e.CallCancel? || e.CancelReturns? {
      assert e.f in z.firings;
    }
  }

  lemma StartIsGood(now: int, timeout: int, slack: nat)
    ensures Inv(Start(now, timeout, slack), timeout)
  {
  }

  lemma {:induction false} RunKeepsInv(y: System, steps: seq<Step>, timeout: int)
    requires Inv(y, timeout) && Legal(y, steps, timeout)
    ensures Inv(Run(y, steps, timeout), timeout)
    decreases |steps|
  {
    if steps != [] {
      hide Inv, Enabled, Apply;
      StepKeepsInv(y, steps[0], timeout);
      RunKeepsInv(Apply(y, steps[0], timeout), steps[1..], timeout);
    }
  }

  /** In every interleaving the callback starts at most once, is never decided before a full timeout since
      the last touch that took effect, and while the watchdog is not stopped it is armed or firing. */
  lemma CancelsOnceNeverEarly(now: int, timeout: int, slack: nat, steps: seq<Step>)
    requires Legal(Start(now, timeout, slack), steps, timeout)
    ensures var z := Run(Start(now, timeout, slack), steps, timeout);
            && z.cancels <= 1 && !z.early
            && (!z.w.stopped ==> z.cancels == 0 && (z.w.armed.Some? || z.firings != map[]))
  {
    StartIsGood(now, timeout, slack);
    RunKeepsInv(Start(now, timeout, slack), steps, timeout);
  }

  // -------------------------------------------------------------------------------- it does cancel

  /** After any run, a firing that gets the mutex goes on to cancel exactly when nothing is stopped and a
      full timeout has passed since the last effective touch, however late it comes; before that it
      re-arms for exactly that moment; and once stopped it only closes. */
  lemma FiringDecides(start: int, timeout: int, slack: nat, steps: seq<Step>, f: nat, late: nat)
    requires Legal(Start(start, timeout, slack), steps, timeout)
    requires Enabled(Run(Start(start, timeout, slack), steps, timeout), Lock(f, late))
    ensures var y := Run(Start(start, timeout, slack), steps, timeout);
            var z := Apply(y, Lock(f, late), timeout);
            if y.w.stopped then
              z == y.(firings := y.firings[f := Closing])
            else if y.now < y.touchedAt + timeout then
              z == y.(w := y.w.(armed := Some(y.touchedAt + timeout + late)), firings := y.firings - {f})
            else
              z.w == y.w.(stopped := true) && z.firings == y.firings[f := Decided] && Enabled(z, CallCancel(f))
  {
    StartIsGood(start, timeout, slack);
    RunKeepsInv(Start(start, timeout, slack), steps, timeout);
  }

  /** Neither touch nor stop. */
  predicate Undisturbed(steps: seq<Step>) {
    forall i :: 0 <= i < |steps| ==> !steps[i].Touch? && !steps[i].Stop?
  }

  lemma CancelsAtOnce(y: System, f: nat, timeout: int) returns (steps: seq<Step>)
    requires Inv(y, timeout) && !y.w.stopped && f in y.firings && y.touchedAt + timeout <= y.now
    ensures Legal(y, steps, timeout) && Undisturbed(steps)
    ensures var z := Run(y, steps, timeout); z.cancels == 1 && z.now == y.now
  {
    var a := Apply(y, Lock(f, 0), timeout);
    var b := Apply(a, CallCancel(f), timeout);
    assert Legal(b, [], timeout) && Run(b, [], timeout) == b;
    Step1(a, CallCancel(f), [], timeout);
    Step1(y, Lock(f, 0), [CallCancel(f)] + [], timeout);
    steps := [Lock(f, 0)] + ([CallCancel(f)] + []);
  }

  /** The armed timer fires when it is due, and its firing cancels. */
  lemma TimerCancels(y: System, timeout: int) returns (steps: seq<Step>)
    requires Inv(y, timeout) && !y.w.stopped && y.w.armed.Some? && y.touchedAt + timeout <= y.w.armed.value
    ensures Legal(y, steps, timeout) && Undisturbed(steps)
    ensures var z := Run(y, steps, timeout);
            z.cancels == 1 && z.now == if y.now < y.w.armed.value then y.w.armed.value else y.now
  {
    var at := if y.now < y.w.armed.value then y.w.armed.value else y.now;
    var f := FreshFiring(y.firings);
    var a := Apply(y, Wait(at), timeout);
    var b := Apply(a, TimerFires(f), timeout);
    StepKeepsInv(y, Wait(at), timeout);
    StepKeepsInv(a, TimerFires(f), timeout);
    var rest := CancelsAtOnce(b, f, timeout);
    Step1(a, TimerFires(f), rest, timeout);
    Step1(y, Wait(at), [TimerFires(f)] + rest, timeout);
    steps := [Wait(at)] + ([TimerFires(f)] + rest);
  }

  lemma {:induction false} FreshFiring(firings: map<nat, Firing>) returns (f: nat)
    ensures forall g :: g in firings ==> g < f
    decreases |firings|
  {
    if firings == map[] {
      f := 0;
    } else {
      var g :| g in firings;
      assert (firings - {g}).Keys == firings.Keys - {g};
      f := FreshFiring(firings - {g});
      f := if f <= g then g + 1 else f;
      assert forall h :: h in firings ==> h == g || h in firings - {g};
    }
  }

  /** Every timer is set for the end of the current interval, up to the slack of the clock readings. */
  ghost predicate OnTime(y: System, timeout: int, slack: nat) {
    !y.w.stopped && y.w.armed.Some? ==> y.touchedAt + timeout <= y.w.armed.value <= y.touchedAt + timeout + slack
  }

  predicate Slack(e: Step, slack: nat) {
    (e.Lock? || e.Touch?) ==> e.slack <= slack
  }

  predicate SlackThroughout(steps: seq<Step>, slack: nat) {
    forall i :: 0 <= i < |steps| ==> Slack(steps[i], slack)
  }

  lemma {:induction false} RunStaysOnTime(y: System, steps: seq<Step>, timeout: int, slack: nat)
    requires Inv(y, timeout) && OnTime(y, timeout, slack) && Legal(y, steps, timeout) && SlackThroughout(steps, slack)
    ensures OnTime(Run(y, steps, timeout), timeout, slack)
    decreases |steps|
  {
    if steps != [] {
      assert Slack(steps[0], slack);
      StepKeepsInv(y, steps[0], timeout);
      assert OnTime(Apply(y, steps[0], timeout), timeout, slack);
      assert forall i :: 0 <= i < |steps[1..]| ==> steps[1..][i] == steps[i + 1];
      hide Inv, OnTime, Apply, Enabled, Slack;
      RunStaysOnTime(Apply(y, steps[0], timeout), steps[1..], timeout, slack);
    }
  }

  /** A stalled transport is cancelled: from every reachable unstopped state, without another touch or
      stop, the callback starts by the end of the interval and the slack, or at once if that is past. */
  lemma StallIsCancelled(start: int, timeout: int, slack: nat, steps: seq<Step>) returns (more: seq<Step>)
    requires Legal(Start(start, timeout, slack), steps, timeout) && SlackThroughout(steps, slack)
    requires !Run(Start(start, timeout, slack), steps, timeout).w.stopped
    ensures var y := Run(Start(start, timeout, slack), steps, timeout);
            && Legal(y, more, timeout) && Undisturbed(more)
            && var z := Run(y, more, timeout);
               z.cancels == 1 && (z.now == y.now || z.now <= y.touchedAt + timeout + slack)
  {
    var y := Run(Start(start, timeout, slack), steps, timeout);
    StartIsGood(start, timeout, slack);
    RunKeepsInv(Start(start, timeout, slack), steps, timeout);
    RunStaysOnTime(Start(start, timeout, slack), steps, timeout, slack);
    if y.w.armed.Some? {
      more := TimerCancels(y, timeout);
    } else {
      var f :| f in y.firings;
      if y.touchedAt + timeout <= y.now {
        more := CancelsAtOnce(y, f, timeout);
      } else {
        var a := Apply(y, Lock(f, 0), timeout);
        StepKeepsInv(y, Lock(f, 0), timeout);
        var rest := TimerCancels(a, timeout);
        Step1(y, Lock(f, 0), rest, timeout);
        more := [Lock(f, 0)] + rest;
      }
    }
  }

  /** The callback has started, or a firing is about to start it, or a Stop came first. */
  ghost predicate Accounted(y: System) {
    y.w.stopped && y.stoppers == map[] ==> y.cancels == 1 || exists f :: f in y.firings && y.firings[f].Decided?
  }

  lemma StepAccounts(y: System, e: Step, timeout: int)
    requires Inv(y, timeout) && Accounted(y) && Enabled(y, e)
    ensures Accounted(Apply(y, e, timeout))
  {
    var z := Apply(y, e, timeout);
    if e.Stop? {
      assert e.s in z.stoppers;
    } else if e.Lock? && Decide(y.w, y.now).Expire? {
      assert z.firings[e.f].Decided?;
    } else if y.w.stopped && y.stoppers == map[] && y.cancels != 1 {
      var f :| f in y.firings && y.firings[f].Decided?;
      assert (e.CallCancel? && e.f == f) || z.firings[f].Decided?;
    }
  }

  lemma {:induction false} RunAccounts(y: System, steps: seq<Step>, timeout: int)
    requires Inv(y, timeout) && Accounted(y) && Legal(y, steps, timeout)
    ensures Accounted(Run(y, steps, timeout))
    decreases |steps|
  {
    if steps != [] {
      hide Inv, Enabled, Apply, Accounted;
      StepKeepsInv(y, steps[0], timeout);
      StepAccounts(y, steps[0], timeout);
      RunAccounts(Apply(y, steps[0], timeout), steps[1..], timeout);
    }
  }

  /** However the goroutines were scheduled, a watchdog that has come to rest without any Stop has
      started its callback exactly once. */
  lemma RestHasCancelled(start: int, timeout: int, slack: nat, steps: seq<Step>)
    requires Legal(Start(start, timeout, slack), steps, timeout)
    requires var z := Run(Start(start, timeout, slack), steps, timeout);
             z.firings == map[] && z.w.armed.None? && z.stoppers == map[]
    ensures Run(Start(start, timeout, slack), steps, timeout).cancels == 1
  {
    StartIsGood(start, timeout, slack);
    RunKeepsInv(Start(start, timeout, slack), steps, timeout);
    RunAccounts(Start(start, timeout, slack), steps, timeout);
  }

  /** Stopped before any firing decided. */
  ghost predicate Silenced(y: System) {
    y.w.stopped && y.w.armed.None? && y.cancels == 0 && forall f :: f in y.firings ==> !Doomed(y, f)
  }

  lemma {:induction false} SilencedRun(y: System, steps: seq<Step>, timeout: int)
    requires Silenced(y) && Legal(y, steps, timeout)
    ensures Silenced(Run(y, steps, timeout))
    decreases |steps|
  {
    if steps != [] {
      Witnesses(y, steps[0], timeout);
      assert Silenced(Apply(y, steps[0], timeout));
      hide Silenced, Enabled, Apply;
      SilencedRun(Apply(y, steps[0], timeout), steps[1..], timeout);
    }
  }

  /** A Stop that comes before any decision is final: the timer never fires again and the callback never
      starts. */
  lemma StopIsFinal(start: int, timeout: int, slack: nat, steps: seq<Step>, s: nat, more: seq<Step>)
    requires Legal(Start(start, timeout, slack), steps, timeout)
    requires var y := Run(Start(start, timeout, slack), steps, timeout);
             !y.w.stopped && Enabled(y, Stop(s)) && Legal(Apply(y, Stop(s), timeout), more, timeout)
    ensures var z := Run(Apply(Run(Start(start, timeout, slack), steps, timeout), Stop(s), timeout), more, timeout);
            z.cancels == 0 && z.w.armed.None?
  {
    var y := Run(Start(start, timeout, slack), steps, timeout);
    StartIsGood(start, timeout, slack);
    RunKeepsInv(Start(start, timeout, slack), steps, timeout);
    assert Silenced(Apply(y, Stop(s), timeout));
    SilencedRun(Apply(y, Stop(s), timeout), more, timeout);
  }

  /** A firing always has a step of its own to take, without waiting for anybody. */
  lemma FiringMoves(y: System, f: nat) returns (e: Step)
    requires f in y.firings
    ensures Enabled(y, e) && e == match y.firings[f] { case Fired => Lock(f, 0) case Decided => CallCancel(f)
                                                       case Cancelling => CancelReturns(f) case Closing => Finish(f) }
  {
    e := match y.firings[f] { case Fired => Lock(f, 0) case Decided => CallCancel(f)
                              case Cancelling => CancelReturns(f) case Closing => Finish(f) };
  }

  function StepsLeft(f: Firing): nat {
    match f
    case Fired => 3
    case Decided => 3
    case Cancelling => 2
    case Closing => 1
  }

  /** A firing of a stopped watchdog, left alone, closes the channel. */
  lemma {:induction false} FiringCloses(y: System, f: nat, timeout: int) returns (steps: seq<Step>)
    requires y.w.stopped && f in y.firings
    ensures Legal(y, steps, timeout) && Undisturbed(steps)
    ensures var z := Run(y, steps, timeout); z.w.done && z.stoppers == y.stoppers
    decreases StepsLeft(y.firings[f])
  {
    var e := FiringMoves(y, f);
    var z := Apply(y, e, timeout);
    if e.Finish? {
      assert Legal(z, [], timeout) && Run(z, [], timeout) == z;
      Step1(y, e, [], timeout);
      steps := [e] + [];
    } else {
      var rest := FiringCloses(z, f, timeout);
      Step1(y, e, rest, timeout);
      steps := [e] + rest;
    }
  }

  /** No Stop is stuck: after every run, a waiting one may return once one pending firing, or the Stop that
      disarmed the timer, has gone on by itself. */
  lemma StopCanReturn(start: int, timeout: int, slack: nat, steps: seq<Step>, s: nat) returns (more: seq<Step>)
    requires Legal(Start(start, timeout, slack), steps, timeout)
    requires var y := Run(Start(start, timeout, slack), steps, timeout); s in y.stoppers && y.stoppers[s].Waiting?
    ensures var y := Run(Start(start, timeout, slack), steps, timeout);
            Legal(y, more, timeout) && Undisturbed(more) && Enabled(Run(y, more, timeout), StopReturns(s))
  {
    var y := Run(Start(start, timeout, slack), steps, timeout);
    StartIsGood(start, timeout, slack);
    RunKeepsInv(Start(start, timeout, slack), steps, timeout);
    if y.w.done {
      more := [];
    } else if SomeDisarmed(y) {
      var other :| other in y.stoppers && y.stoppers[other].Disarmed?;
      var z := Apply(y, StopCloses(other), timeout);
      assert Legal(z, [], timeout) && Run(z, [], timeout) == z;
      Step1(y, StopCloses(other), [], timeout);
      more := [StopCloses(other)] + [];
    } else {
      var f :| f in y.firings;
      more := FiringCloses(y, f, timeout);
    }
  }

  /** Stop cannot wait forever: once the pending firings have run and a Stop that disarmed the timer has
      closed the channel, every waiting Stop may return. */
  lemma StopIsReleased(now: int, timeout: int, slack: nat, steps: seq<Step>, s: nat)
    requires Legal(Start(now, timeout, slack), steps, timeout)
    requires var z := Run(Start(now, timeout, slack), steps, timeout);
             s in z.stoppers && z.stoppers[s].Waiting? && z.firings == map[] && !SomeDisarmed(z)
    ensures Enabled(Run(Start(now, timeout, slack), steps, timeout), StopReturns(s))
  {
    StartIsGood(now, timeout, slack);
    RunKeepsInv(Start(now, timeout, slack), steps, timeout);
  }

  // ------------------------------------------------------------- cancelling after a Stop returned

  /** No continuation starts the callback after a Stop has returned. */
  ghost predicate NeverLate(y: System, timeout: int) {
    forall steps :: Legal(y, steps, timeout) ==> !Run(y, steps, timeout).late
  }

  /** f is the only firing, and no other can come. */
  predicate Sole(y: System, f: nat) {
    y.w.armed.None? && forall g :: g in y.firings ==> g == f
  }

  /** After f decided alone: until its callback starts the channel stays open, so no Stop returns. */
  ghost predicate Guarded(y: System, f: nat) {
    && !y.late && y.w.stopped && y.w.armed.None? && !SomeDisarmed(y)
    && (forall g :: g in y.firings && y.firings[g].Decided? ==> g == f)
    && (f in y.firings && y.firings[f].Decided? ==>
          !y.w.done && !SomeReturned(y) && forall g :: g in y.firings ==> g == f)
  }

  lemma GuardedStep(y: System, e: Step, timeout: int, f: nat)
    requires Guarded(y, f) && Enabled(y, e)
    ensures Guarded(Apply(y, e, timeout), f)
  {
    Witnesses(y, e, timeout);
    var z := Apply(y, e, timeout);
    assert !SomeDisarmed(z) by {
      forall s | s in z.stoppers ensures !z.stoppers[s].Disarmed? {
        assert s in y.stoppers ==> !y.stoppers[s].Disarmed?;
      }
    }
    hide SomeReturned, SomeDisarmed;
  }

  lemma {:induction false} GuardedRun(y: System, steps: seq<Step>, timeout: int, f: nat)
    requires Guarded(y, f) && Legal(y, steps, timeout)
    ensures !Run(y, steps, timeout).late
    decreases |steps|
  {
    if steps != [] {
      hide Guarded, Enabled, Apply;
      GuardedStep(y, steps[0], timeout, f);
      GuardedRun(Apply(y, steps[0], timeout), steps[1..], timeout, f);
    }
  }

  lemma Step1(y: System, e: Step, rest: seq<Step>, timeout: int)
    requires Enabled(y, e) && Legal(Apply(y, e, timeout), rest, timeout)
    ensures Legal(y, [e] + rest, timeout)
    ensures Run(y, [e] + rest, timeout) == Run(Apply(y, e, timeout), rest, timeout)
  {
    hide Apply, Enabled;
    assert ([e] + rest)[1..] == rest;
  }

  /** A second firing g finds the watchdog stopped and closes the channel; a Stop returns; then f starts
      the callback. */
  lemma Overtaken(z: System, f: nat, g: nat, timeout: int) returns (steps: seq<Step>)
    requires f in z.firings && z.firings[f].Decided? && g in z.firings && z.firings[g].Fired?
    requires z.w.stopped && 0 !in z.stoppers
    ensures Legal(z, steps, timeout) && Run(z, steps, timeout).late
  {
    var a := Apply(z, Lock(g, 0), timeout);
    var b := Apply(a, Finish(g), timeout);
    var c := Apply(b, Stop(0), timeout);
    var d := Apply(c, StopReturns(0), timeout);
    var e := Apply(d, CallCancel(f), timeout);
    assert d.stoppers[0].Returned? && SomeReturned(d) && e.late;
    assert Legal(e, [], timeout) && Run(e, [], timeout) == e;
    Step1(d, CallCancel(f), [], timeout);
    Step1(c, StopReturns(0), [CallCancel(f)] + [], timeout);
    Step1(b, Stop(0), [StopReturns(0)] + ([CallCancel(f)] + []), timeout);
    Step1(a, Finish(g), [Stop(0)] + ([StopReturns(0)] + ([CallCancel(f)] + [])), timeout);
    steps := [Lock(g, 0)] + ([Finish(g)] + ([Stop(0)] + ([StopReturns(0)] + ([CallCancel(f)] + []))));
    Step1(z, Lock(g, 0), [Finish(g)] + ([Stop(0)] + ([StopReturns(0)] + ([CallCancel(f)] + []))), timeout);
  }

  /** When a firing decides to cancel, no later interleaving can start the callback after a Stop returned
      if and only if no other firing is pending and the timer is not armed. */
  lemma DecisionIsSafeIff(y: System, f: nat, slack: nat, timeout: int)
    requires Inv(y, timeout) && Enabled(y, Lock(f, slack)) && Decide(y.w, y.now).Expire? && !y.late
    ensures NeverLate(Apply(y, Lock(f, slack), timeout), timeout) <==> Sole(y, f)
  {
    var z := Apply(y, Lock(f, slack), timeout);
    if Sole(y, f) {
      assert Guarded(z, f);
      forall steps | Legal(z, steps, timeout) ensures !Run(z, steps, timeout).late {
        GuardedRun(z, steps, timeout, f);
      }
    } else if g :| g in y.firings && g != f {
      var steps := Overtaken(z, f, g, timeout);
    } else {
      var at := if y.now < y.w.armed.value then y.w.armed.value else y.now;
      var a := Apply(z, Wait(at), timeout);
      var b := Apply(a, TimerFires(f + 1), timeout);
      var rest := Overtaken(b, f, f + 1, timeout);
      Step1(a, TimerFires(f + 1), rest, timeout);
      Step1(z, Wait(at), [TimerFires(f + 1)] + rest, timeout);
    }
  }

  /** Touches come only while no firing is pending. */
  ghost predicate Prompt(y: System, steps: seq<Step>, timeout: int)
    requires Legal(y, steps, timeout)
    decreases |steps|
  {
    steps == [] || ((steps[0].Touch? ==> y.firings == map[]) && Prompt(Apply(y, steps[0], timeout), steps[1..], timeout))
  }

  /** Stopped with nobody about to cancel. */
  ghost predicate Inert(y: System) {
    y.w.stopped && !y.late && forall g :: g in y.firings ==> !y.firings[g].Decided?
  }

  ghost predicate Tame(y: System) {
    if y.w.stopped then Inert(y) || exists f :: Guarded(y, f)
    else
      && !y.late && !y.w.done && y.stoppers == map[] && (y.w.armed.Some? ==> y.firings == map[])
      && (forall f :: f in y.firings ==> y.firings[f].Fired?)
      && forall f, g :: f in y.firings && g in y.firings ==> f == g
  }

  lemma TameStep(y: System, e: Step, timeout: int)
    requires Tame(y) && Enabled(y, e) && (e.Touch? ==> y.firings == map[])
    ensures Tame(Apply(y, e, timeout))
  {
    var z := Apply(y, e, timeout);
    if y.w.stopped {
      if Inert(y) {
        assert Inert(z);
      } else {
        var f :| Guarded(y, f);
        GuardedStep(y, e, timeout, f);
      }
    } else if e.Lock? && Decide(y.w, y.now).Expire? {
      assert !SomeReturned(z) && !SomeDisarmed(z);
      assert Guarded(z, e.f);
    } else if e.Stop? {
      assert Inert(z);
    }
  }

  lemma {:induction false} TameRun(y: System, steps: seq<Step>, timeout: int)
    requires Tame(y) && Legal(y, steps, timeout) && Prompt(y, steps, timeout)
    ensures !Run(y, steps, timeout).late
    decreases |steps|
  {
    if steps != [] {
      TameStep(y, steps[0], timeout);
      hide Tame, Enabled, Apply;
      TameRun(Apply(y, steps[0], timeout), steps[1..], timeout);
    }
  }

  /** While no touch overtakes a pending firing, the callback never starts after a Stop has returned. */
  lemma PromptTouchesAreSafe(now: int, timeout: int, slack: nat, steps: seq<Step>)
    requires Legal(Start(now, timeout, slack), steps, timeout)
    requires Prompt(Start(now, timeout, slack), steps, timeout)
    ensures !Run(Start(now, timeout, slack), steps, timeout).late
  {
    TameRun(Start(now, timeout, slack), steps, timeout);
  }

  /** Otherwise it can: the timer fires, a touch re-arms it before that firing gets the mutex, and a
      timeout later the first firing decides while the second is on its way. */
  lemma LateCancel(timeout: nat) returns (steps: seq<Step>)
    ensures Legal(Start(0, timeout, 0), steps, timeout) && Run(Start(0, timeout, 0), steps, timeout).late
  {
    var a := Start(0, timeout, 0);
    var b := Apply(a, Wait(timeout), timeout);
    var c := Apply(b, TimerFires(0), timeout);
    var d := Apply(c, Touch(0), timeout);
    var e := Apply(d, Wait(2 * timeout), timeout);
    var f := Apply(e, Lock(0, 0), timeout);
    var g := Apply(f, TimerFires(1), timeout);
    var rest := Overtaken(g, 0, 1, timeout);
    Step1(f, TimerFires(1), rest, timeout);
    rest := [TimerFires(1)] + rest;
    Step1(e, Lock(0, 0), rest, timeout);
    rest := [Lock(0, 0)] + rest;
    Step1(d, Wait(2 * timeout), rest, timeout);
    rest := [Wait(2 * timeout)] + rest;
    Step1(c, Touch(0), rest, timeout);
    rest := [Touch(0)] + rest;
    Step1(b, TimerFires(0), rest, timeout);
    rest := [TimerFires(0)] + rest;
    Step1(a, Wait(timeout), rest, timeout);
    steps := [Wait(timeout)] + rest;
  }
}
