/** Reconnecting to lost peers: one loop per address, with a delay that doubles up to a limit.
    A step is the code of `_schedule_reconnect` between two suspensions. */
module Reconnect {

  type Addr = string

  const MAX_DELAY := 30

  function Pow2(n: nat): nat {
    if n == 0 then 1 else 2 * Pow2(n - 1)
  }

  function Delay(attempts: nat): nat {
    if Pow2(attempts) < MAX_DELAY then Pow2(attempts) else MAX_DELAY
  }

  datatype Phase = Sleeping(delay: nat) | Connecting

  datatype Loop = Loop(addr: Addr, phase: Phase)

  type Backoff = map<Addr, nat>

  datatype State = State(loops: map<nat, Loop>, busy: set<Addr>, backoff: Backoff, down: bool)

  const INITIAL := State(map[], {}, map[], false)

  function Attempts(b: Backoff, addr: Addr): nat {
    if addr in b then b[addr] else 0
  }

  datatype Turn = Leave | Reset | Sleep(delay: nat)

  /** The head of the loop: stop on shutdown, or if the address is connected again, or else sleep. */
  function TurnOf(b: Backoff, addr: Addr, connected: bool, down: bool): Turn {
    if down then Leave else if connected then Reset else Sleep(Delay(Attempts(b, addr)))
  }

  function BackoffAfter(b: Backoff, addr: Addr, t: Turn): Backoff {
    match t
    case Leave => b
    case Reset => b[addr := 0]
    case Sleep(_) => b[addr := Attempts(b, addr) + 1]
  }

  datatype Step =
    | Schedule(id: nat, addr: Addr, connected: bool)
    | WakeUp(id: nat)
    | Connected(id: nat)
    | Refused(id: nat, connected: bool)
    | Raise(id: nat)
    | ShutDown

  function End(s: State, id: nat): State
    requires id in s.loops
  {
    s.(loops := s.loops - {id}, busy := s.busy - {s.loops[id].addr})
  }

  /** Loop id is at its head. */
  function Head(s: State, id: nat, connected: bool): State
    requires id in s.loops
  {
    var addr := s.loops[id].addr;
    var t := TurnOf(s.backoff, addr, connected, s.down);
    var s1 := s.(backoff := BackoffAfter(s.backoff, addr, t));
    if t.Sleep? then s1.(loops := s.loops[id := Loop(addr, Sleeping(t.delay))]) else End(s1, id)
  }

  predicate Enabled(s: State, a: Step) {
    match a
    case Schedule(id, _, _) => id !in s.loops
    case WakeUp(id) => id in s.loops && s.loops[id].phase.Sleeping?
    case Connected(id) => id in s.loops && s.loops[id].phase.Connecting?
    case Refused(id, _) => id in s.loops && s.loops[id].phase.Connecting?
    case Raise(id) => id in s.loops
    case ShutDown => true
  }

  function Apply(s: State, a: Step): State
    requires Enabled(s, a)
  {
    match a
    case Schedule(id, addr, connected) =>
      if addr in s.busy then s
      else Head(s.(loops := s.loops[id := Loop(addr, Connecting)], busy := s.busy + {addr}), id, connected)
    case WakeUp(id) =>
      if s.down then End(s, id) else s.(loops := s.loops[id := s.loops[id].(phase := Connecting)])
    case Connected(id) => End(s.(backoff := s.backoff[s.loops[id].addr := 0]), id)
    case Refused(id, connected) => Head(s, id, connected)
    case Raise(id) => End(s, id)
    case ShutDown => s.(down := true)
  }

  datatype Run = Start | Do(before: Run, step: Step)

  ghost predicate Legal(r: Run)
    decreases r, 0
  {
    r.Do? ==> Legal(r.before) && Enabled(After(r.before), r.step)
  }

  ghost function After(r: Run): State
    requires Legal(r)
    decreases r, 1
  {
    if r.Start? then INITIAL else Apply(After(r.before), r.step)
  }

  // ---------------------------------------------------------------- what a step does

  /** Loop id is at its head: on shutdown it ends and the counter stays; if the address is connected it ends and the
      counter is 0; or else it sleeps, and the attempt is counted. */
  ghost predicate HeadTaken(s: State, s': State, id: nat, addr: Addr, connected: bool) {
    && (s.down || connected ==> id !in s'.loops && addr !in s'.busy)
    && (s.down ==> s'.backoff == s.backoff)
    && (!s.down && connected ==> addr in s'.backoff && s'.backoff[addr] == 0)
    && (!s.down && !connected ==>
          && id in s'.loops && addr in s'.busy
          && s'.loops[id] == Loop(addr, Sleeping(Delay(Attempts(s.backoff, addr))))
          && addr in s'.backoff && s'.backoff[addr] == Attempts(s.backoff, addr) + 1)
  }

  /** What a step does to its own loop. */
  lemma LoopStepEffect(s: State, a: Step)
    requires Enabled(s, a) && !a.ShutDown? && OneLoopEach(s.loops, s.busy)
    ensures var s', id := Apply(s, a), a.id;
            && s'.down == s.down
            && (a.Schedule? && a.addr in s.busy ==> s' == s)
            && (a.Schedule? && a.addr !in s.busy ==> HeadTaken(s, s', id, a.addr, a.connected))
            && (a.Refused? ==> HeadTaken(s, s', id, s.loops[id].addr, a.connected))
            && (a.WakeUp? ==> s'.backoff == s.backoff)
            && (a.WakeUp? && s.down ==> id !in s'.loops && s.loops[id].addr !in s'.busy)
            && (a.WakeUp? && !s.down ==>
                  id in s'.loops && s'.loops[id] == Loop(s.loops[id].addr, Connecting) && s'.busy == s.busy)
            && (a.Connected? ==> id !in s'.loops && s.loops[id].addr !in s'.busy && Attempts(s'.backoff, s.loops[id].addr) == 0)
            && (a.Raise? ==> id !in s'.loops && s.loops[id].addr !in s'.busy && s'.backoff == s.backoff)
  {
  }

  /** The other loops, and the marks and counters of other addresses, stay as they are. */
  lemma OtherLoopsUndisturbed(s: State, a: Step, j: nat, b: Addr)
    requires Enabled(s, a) && !a.ShutDown?
    ensures var s' := Apply(s, a);
            && (j != a.id ==> (j in s'.loops <==> j in s.loops) && (j in s.loops ==> s'.loops[j] == s.loops[j]))
            && (b != (if a.Schedule? then a.addr else s.loops[a.id].addr) ==>
                  (b in s'.busy <==> b in s.busy) && Attempts(s'.backoff, b) == Attempts(s.backoff, b))
  {
  }

  // ---------------------------------------------------------------- one loop per address

  ghost predicate Serves(id: nat, addr: Addr, loops: map<nat, Loop>) {
    id in loops && loops[id].addr == addr
  }

  /** An address is marked as busy exactly while a loop serves it, and then just one does. */
  ghost predicate OneLoopEach(loops: map<nat, Loop>, busy: set<Addr>) {
    && (forall i :: i in loops ==> loops[i].addr in busy)
    && (forall i, j :: i in loops && j in loops && loops[i].addr == loops[j].addr ==> i == j)
    && (forall a :: a in busy ==> exists i :: Serves(i, a, loops))
  }

  lemma EndKeepsOne(loops: map<nat, Loop>, busy: set<Addr>, id: nat)
    requires OneLoopEach(loops, busy) && id in loops
    ensures OneLoopEach(loops - {id}, busy - {loops[id].addr})
  {
    forall a | a in busy && a != loops[id].addr
      ensures exists i :: Serves(i, a, loops - {id})
    {
      var i :| Serves(i, a, loops);
      assert Serves(i, a, loops - {id});
    }
  }

  lemma PhaseKeepsOne(loops: map<nat, Loop>, busy: set<Addr>, id: nat, p: Phase)
    requires OneLoopEach(loops, busy) && id in loops
    ensures OneLoopEach(loops[id := loops[id].(phase := p)], busy)
  {
    var loops' := loops[id := loops[id].(phase := p)];
    forall a | a in busy
      ensures exists i :: Serves(i, a, loops')
    {
      var i :| Serves(i, a, loops);
      assert Serves(i, a, loops');
    }
  }

  lemma StartKeepsOne(loops: map<nat, Loop>, busy: set<Addr>, id: nat, addr: Addr)
    requires OneLoopEach(loops, busy) && id !in loops && addr !in busy
    ensures OneLoopEach(loops[id := Loop(addr, Connecting)], busy + {addr})
  {
    var loops' := loops[id := Loop(addr, Connecting)];
    assert Serves(id, addr, loops');
    forall a | a in busy
      ensures exists i :: Serves(i, a, loops')
    {
      var i :| Serves(i, a, loops);
      assert Serves(i, a, loops');
    }
  }

  lemma HeadKeepsOne(s: State, id: nat, connected: bool)
    requires OneLoopEach(s.loops, s.busy) && id in s.loops
    ensures OneLoopEach(Head(s, id, connected).loops, Head(s, id, connected).busy)
  {
    EndKeepsOne(s.loops, s.busy, id);
    PhaseKeepsOne(s.loops, s.busy, id, Sleeping(Delay(Attempts(s.backoff, s.loops[id].addr))));
  }

  lemma StepKeepsOne(s: State, a: Step)
    requires OneLoopEach(s.loops, s.busy) && Enabled(s, a)
    ensures OneLoopEach(Apply(s, a).loops, Apply(s, a).busy)
  {
    match a
    case Schedule(id, addr, connected) =>
      if addr !in s.busy {
        StartKeepsOne(s.loops, s.busy, id, addr);
        HeadKeepsOne(s.(loops := s.loops[id := Loop(addr, Connecting)], busy := s.busy + {addr}), id, connected);
      }
    case WakeUp(id) =>
      EndKeepsOne(s.loops, s.busy, id);
      PhaseKeepsOne(s.loops, s.busy, id, Connecting);
    case Connected(id) => EndKeepsOne(s.loops, s.busy, id);
    case Refused(id, connected) => HeadKeepsOne(s, id, connected);
    case Raise(id) => EndKeepsOne(s.loops, s.busy, id);
    case ShutDown =>
  }

  /** However calls, wake-ups, refusals and exceptions interleave, each address has at most one loop, and a call
      is dropped only when a loop for its address is alive. */
  lemma {:induction false} AtMostOneLoopPerAddress(r: Run)
    requires Legal(r)
    ensures OneLoopEach(After(r).loops, After(r).busy)
  {
    if r.Do? {
      AtMostOneLoopPerAddress(r.before);
      StepKeepsOne(After(r.before), r.step);
    }
  }

  // ---------------------------------------------------------------- the waits

  /** What the step does for the address: begin a sleep, reset the counter, or neither. */
  function TurnFor(s: State, a: Step, addr: Addr): Turn
    requires Enabled(s, a)
  {
    match a
    case Schedule(_, b, connected) =>
      if b == addr && addr !in s.busy then TurnOf(s.backoff, addr, connected, s.down) else Leave
    case Refused(id, connected) =>
      if s.loops[id].addr == addr then TurnOf(s.backoff, addr, connected, s.down) else Leave
    case Connected(id) => if s.loops[id].addr == addr then Reset else Leave
    case _ => Leave
  }

  /** The sleeps begun for the address since it was last seen connected. */
  ghost function Sleeps(r: Run, addr: Addr): seq<nat>
    requires Legal(r)
  {
    if r.Start? then []
    else
      match TurnFor(After(r.before), r.step, addr)
      case Leave => Sleeps(r.before, addr)
      case Reset => []
      case Sleep(d) => Sleeps(r.before, addr) + [d]
  }

  lemma TurnTakesEffect(s: State, a: Step, addr: Addr)
    requires Enabled(s, a)
    ensures var before, after := Attempts(s.backoff, addr), Attempts(Apply(s, a).backoff, addr);
            match TurnFor(s, a, addr)
            case Leave => after == before
            case Reset => after == 0
            case Sleep(d) => after == before + 1 && d == Delay(before)
  {
  }

  /** The n-th sleep since the last connection, counted from 0, is min(2^n, 30) seconds, and the counter is the
      number of these sleeps: it does not start again when a loop ends in another way. */
  lemma {:induction false} SleepsDouble(r: Run, addr: Addr)
    requires Legal(r)
    ensures |Sleeps(r, addr)| == Attempts(After(r).backoff, addr)
    ensures forall n :: 0 <= n < |Sleeps(r, addr)| ==> Sleeps(r, addr)[n] == if Pow2(n) < 30 then Pow2(n) else 30
  {
    if r.Do? {
      SleepsDouble(r.before, addr);
      TurnTakesEffect(After(r.before), r.step, addr);
    }
  }

  /** A sleeping loop sleeps for the last of these times. */
  ghost predicate SleepsLast(l: Loop, b: Backoff) {
    l.phase.Sleeping? ==> Attempts(b, l.addr) > 0 && l.phase.delay == Delay(Attempts(b, l.addr) - 1)
  }

  ghost predicate AllSleepLast(s: State) {
    OneLoopEach(s.loops, s.busy) && forall id :: id in s.loops ==> SleepsLast(s.loops[id], s.backoff)
  }

  /** The other loops serve other addresses. */
  lemma HeadSleepsLast(s: State, id: nat, connected: bool)
    requires AllSleepLast(s) && id in s.loops
    ensures AllSleepLast(Head(s, id, connected))
  {
    HeadKeepsOne(s, id, connected);
    var s' := Head(s, id, connected);
    forall j | j in s'.loops
      ensures SleepsLast(s'.loops[j], s'.backoff)
    {
      assert SleepsLast(s.loops[j], s.backoff);
    }
  }

  lemma StepSleepsLast(s: State, a: Step)
    requires AllSleepLast(s) && Enabled(s, a)
    ensures AllSleepLast(Apply(s, a))
  {
    StepKeepsOne(s, a);
    if a.Schedule? && a.addr !in s.busy {
      StartKeepsOne(s.loops, s.busy, a.id, a.addr);
      HeadSleepsLast(s.(loops := s.loops[a.id := Loop(a.addr, Connecting)], busy := s.busy + {a.addr}), a.id, a.connected);
    } else if a.Refused? {
      HeadSleepsLast(s, a.id, a.connected);
    } else {
      var s' := Apply(s, a);
      forall j | j in s'.loops
        ensures SleepsLast(s'.loops[j], s'.backoff)
      {
        assert SleepsLast(s.loops[j], s.backoff);
      }
    }
  }

  lemma {:induction false} EveryRunSleepsLast(r: Run)
    requires Legal(r)
    ensures AllSleepLast(After(r))
  {
    if r.Do? {
      EveryRunSleepsLast(r.before);
      StepSleepsLast(After(r.before), r.step);
    }
  }

  /** A loop that sleeps for an address does so for the last of that address's sleeps. */
  lemma SleepIsLatest(r: Run, id: nat)
    requires Legal(r) && id in After(r).loops && After(r).loops[id].phase.Sleeping?
    ensures var l := After(r).loops[id];
            var w := Sleeps(r, l.addr);
            w != [] && l.phase.delay == w[|w| - 1]
  {
    EveryRunSleepsLast(r);
    SleepsDouble(r, After(r).loops[id].addr);
    assert SleepsLast(After(r).loops[id], After(r).backoff);
  }

  function Sum(w: seq<nat>): nat {
    if w == [] then 0 else Sum(w[..|w| - 1]) + w[|w| - 1]
  }

  lemma {:induction false} LargePowers(n: nat)
    requires n >= 5
    ensures Pow2(n) >= 32
  {
    if n > 5 { LargePowers(n - 1); }
  }

  lemma {:induction false} SumOfDelays(w: seq<nat>)
    requires forall n :: 0 <= n < |w| ==> w[n] == Delay(n)
    ensures Sum(w) == if |w| <= 5 then Pow2(|w|) - 1 else 31 + 30 * (|w| - 5)
  {
    if w != [] {
      var n := |w| - 1;
      SumOfDelays(w[..n]);
      if n >= 5 { LargePowers(n); }
      assert Pow2(5) == 2 * Pow2(4) == 4 * Pow2(3) == 8 * Pow2(2) == 16 * Pow2(1) == 32;
    }
  }

  /** After n failed attempts the loop has waited 2^n - 1 seconds, or 31 + 30 (n - 5) from the fifth on. */
  lemma TotalWait(r: Run, addr: Addr)
    requires Legal(r)
    ensures var n := Attempts(After(r).backoff, addr);
            Sum(Sleeps(r, addr)) == if n <= 5 then Pow2(n) - 1 else 31 + 30 * (n - 5)
  {
    SleepsDouble(r, addr);
    SumOfDelays(Sleeps(r, addr));
  }

  /** The step finds the address connected, or connects it. */
  predicate SeesConnected(s: State, a: Step, addr: Addr) {
    match a
    case Schedule(_, b, connected) => connected && b == addr
    case Refused(id, connected) => connected && id in s.loops && s.loops[id].addr == addr
    case Connected(id) => id in s.loops && s.loops[id].addr == addr
    case _ => false
  }

  /** r continues r0, and in between the address was never seen connected. */
  ghost predicate NotConnectedSince(r: Run, r0: Run, addr: Addr)
    requires Legal(r)
  {
    r == r0 || (r.Do? && NotConnectedSince(r.before, r0, addr) && !SeesConnected(After(r.before), r.step, addr))
  }

  /** However its loops end and start again, until the address is connected its sleeps only add up: the counter
      never falls, and the next sleep goes on from where the last one was. */
  lemma {:induction false} SleepsAddUpUntilConnected(r: Run, r0: Run, addr: Addr)
    requires Legal(r) && NotConnectedSince(r, r0, addr)
    ensures Legal(r0) && Sleeps(r0, addr) <= Sleeps(r, addr)
    ensures Attempts(After(r0).backoff, addr) <= Attempts(After(r).backoff, addr)
  {
    if r != r0 {
      SleepsAddUpUntilConnected(r.before, r0, addr);
      SleepsDouble(r.before, addr);
    }
    SleepsDouble(r0, addr);
    SleepsDouble(r, addr);
  }

  // ---------------------------------------------------------------- the code

  /** What one turn of the loop meets: at its head, after its sleep, and in its attempt to connect. */
  datatype World = World(connected: seq<Addr>, down: bool, downAfterSleep: bool, raises: bool, success: bool)

  class Reconnector {
    var reconnecting: set<Addr>
    var backoff: Backoff

    constructor ()
      ensures reconnecting == {} && backoff == map[]
    {
      reconnecting, backoff := {}, map[];
    }

    /** A call up to its first suspension. */
    method ScheduleReconnect(addr: Addr, connected: seq<Addr>, down: bool) returns (turn: Turn)
      modifies this
      ensures addr in old(reconnecting) ==> turn == Leave && reconnecting == old(reconnecting) && backoff == old(backoff)
      ensures addr !in old(reconnecting) ==>
                && turn == TurnOf(old(backoff), addr, addr in connected, down)
                && backoff == BackoffAfter(old(backoff), addr, turn)
                && reconnecting == if turn.Sleep? then old(reconnecting) + {addr} else old(reconnecting)
    {
      if addr in reconnecting {
        return Leave;
      }
      reconnecting := reconnecting + {addr};
      turn := HeadOfLoop(addr, connected, down);
    }

    method HeadOfLoop(addr: Addr, connected: seq<Addr>, down: bool) returns (turn: Turn)
      requires addr in reconnecting
      modifies this
      ensures turn == TurnOf(old(backoff), addr, addr in connected, down)
      ensures backoff == BackoffAfter(old(backoff), addr, turn)
      ensures reconnecting == if turn.Sleep? then old(reconnecting) else old(reconnecting) - {addr}
    {
      if down {
        reconnecting := reconnecting - {addr};
        return Leave;
      }
      var isConnected := false;
      for i := 0 to |connected|
        invariant !isConnected && addr !in connected[..i]
      {
        if connected[i] == addr {
          isConnected := true;
          break;
        }
      }
      if isConnected {
        backoff := backoff[addr := 0];
        reconnecting := reconnecting - {addr};
        return Reset;
      }
      var attempts := Attempts(backoff, addr);
      var power := Power(attempts);
      var delay := if power < MAX_DELAY then power else MAX_DELAY;
      backoff := backoff[addr := attempts + 1];
      turn := Sleep(delay);
    }

    static method Power(n: nat) returns (p: nat)
      ensures p == Pow2(n)
    {
      p := 1;
      for i := 0 to n
        invariant p == Pow2(i)
      {
        p := 2 * p;
      }
    }

    /** The sleep is over. */
    method SleepDone(addr: Addr, down: bool) returns (goOn: bool)
      requires addr in reconnecting
      modifies `reconnecting
      ensures goOn <==> !down
      ensures reconnecting == if down then old(reconnecting) - {addr} else old(reconnecting)
    {
      if down {
        reconnecting := reconnecting - {addr};
      }
      goOn := !down;
    }

    /** An exception ends the loop; the counter stays. */
    method Abandon(addr: Addr)
      modifies `reconnecting
      ensures reconnecting == old(reconnecting) - {addr}
    {
      reconnecting := reconnecting - {addr};
    }

    /** The connection attempt has returned. */
    method AttemptDone(addr: Addr, success: bool, connected: seq<Addr>, down: bool) returns (turn: Turn)
      requires addr in reconnecting
      modifies this
      ensures success ==> turn == Reset
      ensures !success ==> turn == TurnOf(old(backoff), addr, addr in connected, down)
      ensures backoff == BackoffAfter(old(backoff), addr, turn)
      ensures reconnecting == if turn.Sleep? then old(reconnecting) else old(reconnecting) - {addr}
    {
      if success {
        backoff := backoff[addr := 0];
        reconnecting := reconnecting - {addr};
        return Reset;
      }
      turn := HeadOfLoop(addr, connected, down);
    }

    /** The whole coroutine for one address, while nobody else touches its entries. `world` says what each turn
        meets; after the last one the coroutine is cancelled. It returns how long it slept each time, and whether it ended because the address was connected. */
    method RunLoop(addr: Addr, world: seq<World>) returns (slept: seq<nat>, success: bool)
      modifies this
      ensures addr in old(reconnecting) ==> slept == [] && backoff == old(backoff)
      ensures reconnecting == old(reconnecting)
      ensures forall i :: 0 <= i < |slept| ==> slept[i] == Delay(Attempts(old(backoff), addr) + i)
      ensures Attempts(backoff, addr) == if success then 0 else Attempts(old(backoff), addr) + |slept|
      ensures forall b :: b != addr ==> Attempts(backoff, b) == Attempts(old(backoff), b)
    {
      slept, success := [], false;
      if addr in reconnecting || world == [] {
        return;
      }
      var turn := ScheduleReconnect(addr, world[0].connected, world[0].down);
      var i := 0;
      while turn.Sleep?
        invariant i <= |world| && (turn.Sleep? ==> i < |world|)
        invariant reconnecting == if turn.Sleep? then old(reconnecting) + {addr} else old(reconnecting)
        invariant turn.Sleep? ==> turn.delay == Delay(Attempts(old(backoff), addr) + |slept|)
        invariant forall j :: 0 <= j < |slept| ==> slept[j] == Delay(Attempts(old(backoff), addr) + j)
        invariant Attempts(backoff, addr) == match turn
                                             case Leave => Attempts(old(backoff), addr) + |slept|
                                             case Reset => 0
                                             case Sleep(_) => Attempts(old(backoff), addr) + |slept| + 1
        invariant forall b :: b != addr ==> Attempts(backoff, b) == Attempts(old(backoff), b)
        decreases |world| - i, turn.Sleep?
      {
        slept := slept + [turn.delay];
        var goOn := SleepDone(addr, world[i].downAfterSleep);
        var last := i + 1 == |world|;
        if !goOn {
          turn := Leave;
        } else if world[i].raises || (last && !world[i].success) {
          Abandon(addr);
          turn := Leave;
        } else if world[i].success {
          turn := AttemptDone(addr, true, [], false);
        } else {
          i := i + 1;
          turn := AttemptDone(addr, false, world[i].connected, world[i].down);
        }
      }
      success := turn.Reset?;
    }
  }
}
