/** The per-peer rate limiter at the head of the message dispatcher. */
module RateLimiter {
  import opened Spacing

  const HELLO_GAP := 60.0
  const WINDOW := 60.0
  const LIMIT := 100

  datatype Kind = Hello | Bye | Other

  datatype Msg = Msg(kind: Kind, time: real)

  datatype Verdict = Dispatched | HelloFlood | OverLimit

  datatype Window = NoWindow | Window(count: nat, start: real)

  /** What the node remembers about one peer address. */
  datatype PeerState = PeerState(lastHello: real, window: Window)

  /** A peer never heard of: the clock value 0.0 stands in for its last HELLO. */
  const UNKNOWN_PEER := PeerState(0.0, NoWindow)

  /** One pass through the limiter. A refused HELLO is not counted; a BYE is counted and always passes. */
  function Check(s: PeerState, m: Msg): (PeerState, Verdict) {
    if m.kind == Hello && m.time - s.lastHello < HELLO_GAP then
      (s, HelloFlood)
    else
      var hello := if m.kind == Hello then m.time else s.lastHello;
      var w := if s.window.NoWindow? || m.time - s.window.start > WINDOW then Window(0, m.time) else s.window;
      var w' := Window(w.count + 1, w.start);
      (PeerState(hello, w'), if m.kind == Bye || w'.count <= LIMIT then Dispatched else OverLimit)
  }

  // ---------------------------------------------------------------- runs of one peer

  /** Messages in the order of arrival, the most recent one outermost. */
  datatype Trace = Start | Then(before: Trace, last: Msg) {
    function Append(t: Trace): Trace {
      match t
      case Start => this
      case Then(b, m) => Then(Append(b), m)
    }

    function Length(): nat {
      if Start? then 0 else before.Length() + 1
    }

    ghost predicate Has(m: Msg) {
      Then? && (last == m || before.Has(m))
    }
  }

  function StateAfter(h: Trace): PeerState {
    match h
    case Start => UNKNOWN_PEER
    case Then(b, m) => Check(StateAfter(b), m).0
  }

  /** The verdict on the last message of a run. */
  function LastVerdict(h: Trace): Verdict
    requires h.Then?
  {
    Check(StateAfter(h.before), h.last).1
  }

  /** A clock that starts at or after zero and never goes back. */
  ghost predicate Timed(h: Trace) {
    h.Then? ==> Timed(h.before) && h.last.time >= 0.0 && (h.before.Then? ==> h.before.last.time <= h.last.time)
  }

  /** The time of the last HELLO that came 60 s or more after the one accepted before it; 0.0 stands for none. */
  function LastAccepted(h: Trace): real {
    match h
    case Start => 0.0
    case Then(b, m) => if m.kind == Hello && m.time - LastAccepted(b) >= 60.0 then m.time else LastAccepted(b)
  }

  /** The message is a HELLO that comes too soon after the last one accepted. */
  predicate ComesTooSoon(b: Trace, m: Msg) {
    m.kind == Hello && m.time - LastAccepted(b) < 60.0
  }

  /** What counts: every message but a HELLO that comes too soon. */
  function Counted(h: Trace): Trace {
    match h
    case Start => Start
    case Then(b, m) => if ComesTooSoon(b, m) then Counted(b) else Then(Counted(b), m)
  }

  /** The messages handed to the protocol handlers. */
  function Passed(h: Trace): Trace {
    match h
    case Start => Start
    case Then(b, m) => if LastVerdict(h) == Dispatched then Then(Passed(b), m) else Passed(b)
  }

  // ---------------------------------------------------------------- the fixed-window specification

  /** A run cut into windows, the most recent one outermost. */
  datatype Cut = Uncut | Cut(earlier: Cut, window: Trace)

  function Flatten(ws: Cut): Trace {
    match ws
    case Uncut => Start
    case Cut(pre, g) => Flatten(pre).Append(g)
  }

  function Opening(g: Trace): real
    requires g.Then?
  {
    if g.before.Start? then g.last.time else Opening(g.before)
  }

  ghost predicate WithinWindow(g: Trace) {
    g.Then? && 0.0 <= g.last.time - Opening(g) <= 60.0 && (g.before.Then? ==> WithinWindow(g.before))
  }

  /** Every window is nonempty and lies within 60 s of its first message, and each one
      opens more than 60 s after the previous one opened. */
  ghost predicate FixedWindows(ws: Cut) {
    ws.Cut? ==>
      && FixedWindows(ws.earlier)
      && WithinWindow(ws.window)
      && (ws.earlier.Cut? ==> Opening(ws.window) - Opening(ws.earlier.window) > 60.0)
  }

  /** The first 100 messages of a window, and every BYE of it. */
  function Allowed(g: Trace): Trace {
    match g
    case Start => Start
    case Then(b, m) => if g.Length() <= 100 || m.kind == Bye then Then(Allowed(b), m) else Allowed(b)
  }

  function AllowedOf(ws: Cut): Trace {
    match ws
    case Uncut => Start
    case Cut(pre, g) => AllowedOf(pre).Append(Allowed(g))
  }

  /** One more message: it joins the last window or opens a new one. */
  function Extend(ws: Cut, m: Msg): Cut {
    if ws.Uncut? || ws.window.Start? || m.time - Opening(ws.window) > 60.0 then Cut(ws, Then(Start, m))
    else Cut(ws.earlier, Then(ws.window, m))
  }

  /** The windows the counter actually opens. */
  function Windows(c: Trace): Cut {
    match c
    case Start => Uncut
    case Then(b, m) => Extend(Windows(b), m)
  }

  lemma {:induction false} CountedIsTimed(h: Trace)
    requires Timed(h)
    ensures Timed(Counted(h))
    ensures Counted(h).Then? ==> h.Then? && Counted(h).last.time <= h.last.time
  {
    if h.Then? { CountedIsTimed(h.before); }
  }

  lemma AppendOne(t: Trace, m: Msg)
    ensures t.Append(Then(Start, m)) == Then(t, m)
  {
    assert t.Append(Start) == t;
  }

  /** The windows the counter opens do cut the run as the rule says. */
  lemma {:induction false} WindowsPartition(c: Trace)
    requires Timed(c)
    ensures FixedWindows(Windows(c)) && Flatten(Windows(c)) == c
    ensures c.Then? ==> Windows(c).Cut? && Windows(c).window.Then? && Opening(Windows(c).window) <= c.last.time
  {
    if c.Then? {
      WindowsPartition(c.before);
      AppendOne(c.before, c.last);
    }
  }

  /** There is only one way to cut a run into such windows, so "the windows" is well defined. */
  lemma {:induction false} WindowsAreUnique(ws: Cut)
    requires FixedWindows(ws)
    ensures ws == Windows(Flatten(ws))
    decreases ws, 1
  {
    if ws.Cut? { GrowingLastWindow(ws.earlier, ws.window); }
  }

  lemma {:induction false} GrowingLastWindow(pre: Cut, g: Trace)
    requires FixedWindows(Cut(pre, g))
    ensures Cut(pre, g) == Windows(Flatten(pre).Append(g))
    decreases pre, 2, g
  {
    if g.before.Start? {
      WindowsAreUnique(pre);
      AppendOne(Flatten(pre), g.last);
    } else {
      GrowingLastWindow(pre, g.before);
    }
  }

  lemma {:induction false} LimiterKeepsLastAccepted(h: Trace)
    ensures StateAfter(h).lastHello == LastAccepted(h)
    ensures h.Then? ==> (LastVerdict(h) == HelloFlood <==> ComesTooSoon(h.before, h.last))
  {
    if h.Then? { LimiterKeepsLastAccepted(h.before); }
  }

  /** What the node stores of a cut: the length and opening time of the last window. */
  function LastWindow(ws: Cut): Window {
    if ws.Uncut? || ws.window.Start? then NoWindow else Window(ws.window.Length(), Opening(ws.window))
  }

  /** The stored counter is that of the last window, and exactly the allowed messages pass. */
  lemma {:induction false} CounterTracksWindows(h: Trace)
    ensures StateAfter(h).window == LastWindow(Windows(Counted(h)))
    ensures Passed(h) == AllowedOf(Windows(Counted(h)))
    ensures Windows(Counted(h)).Cut? ==> Windows(Counted(h)).window.Then?
  {
    if h.Then? {
      CounterTracksWindows(h.before);
      LimiterKeepsLastAccepted(h.before);
      assert Then(Start, h.last).Length() == 1;
      assert Allowed(Then(Start, h.last)) == Then(Start, h.last);
      AppendOne(Passed(h.before), h.last);
    }
  }

  /** The limiter refines the fixed-window rule: whatever way the counted messages are cut into
      windows, the messages that pass are the first 100 of each window and every BYE. */
  lemma LimiterRefinesFixedWindows(h: Trace, ws: Cut)
    requires Timed(h) && FixedWindows(ws) && Flatten(ws) == Counted(h)
    ensures Passed(h) == AllowedOf(ws)
  {
    WindowsAreUnique(ws);
    CounterTracksWindows(h);
  }

  /** Message by message: a message is dispatched exactly when it is no HELLO that comes too soon, and it is a BYE or
      one of the first 100 of its window, which is the last one so far. */
  lemma PassesIff(h: Trace, ws: Cut)
    requires Timed(h) && h.Then? && FixedWindows(ws) && Flatten(ws) == Counted(h)
    ensures LastVerdict(h) == Dispatched <==>
            !ComesTooSoon(h.before, h.last) && (h.last.kind == Bye || (ws.Cut? && ws.window.Length() <= 100))
  {
    WindowsAreUnique(ws);
    LimiterKeepsLastAccepted(h);
    CounterTracksWindows(h);
  }

  // ---------------------------------------------------------------- the bound over any interval

  /** Messages other than BYE with a time in [a, b]. */
  function NonByeIn(ms: Trace, a: real, b: real): nat {
    match ms
    case Start => 0
    case Then(rest, m) => NonByeIn(rest, a, b) + (if m.kind != Bye && a <= m.time <= b then 1 else 0)
  }

  lemma {:induction false} NonByeAppend(x: Trace, y: Trace, a: real, b: real)
    ensures NonByeIn(x.Append(y), a, b) == NonByeIn(x, a, b) + NonByeIn(y, a, b)
  {
    if y.Then? { NonByeAppend(x, y.before, a, b); }
  }

  lemma {:induction false} AllowedIsBounded(g: Trace, a: real, b: real)
    ensures NonByeIn(Allowed(g), a, b) <= if g.Length() <= 100 then g.Length() else 100
  {
    if g.Then? { AllowedIsBounded(g.before, a, b); }
  }

  lemma {:induction false} NoneInsideWindow(g: Trace, a: real, b: real)
    requires WithinWindow(g) && (Opening(g) > b || Opening(g) + 60.0 < a)
    ensures NonByeIn(Allowed(g), a, b) == 0
  {
    if g.before.Then? { NoneInsideWindow(g.before, a, b); }
  }

  lemma {:induction false} NoneInsideEarlier(ws: Cut, a: real, b: real)
    requires FixedWindows(ws) && (ws.Cut? ==> Opening(ws.window) + 60.0 < a)
    ensures NonByeIn(AllowedOf(ws), a, b) == 0
  {
    if ws.Cut? {
      NoneInsideEarlier(ws.earlier, a, b);
      NoneInsideWindow(ws.window, a, b);
      NonByeAppend(AllowedOf(ws.earlier), Allowed(ws.window), a, b);
    }
  }

  /** The opening times of the windows that open inside (a, b]. */
  function OpeningsIn(ws: Cut, a: real, b: real): Times
    requires FixedWindows(ws)
  {
    match ws
    case Uncut => Never
    case Cut(pre, g) => if a < Opening(g) <= b then At(OpeningsIn(pre, a, b), Opening(g)) else OpeningsIn(pre, a, b)
  }

  lemma {:induction false} OpeningsAreSpaced(ws: Cut, a: real, b: real)
    requires FixedWindows(ws)
    ensures OpeningsIn(ws, a, b).SpacedBy(60.0) && OpeningsIn(ws, a, b).Within(a, b)
    ensures OpeningsIn(ws, a, b).At? ==> ws.Cut? && OpeningsIn(ws, a, b).t <= Opening(ws.window)
  {
    if ws.Cut? { OpeningsAreSpaced(ws.earlier, a, b); }
  }

  lemma {:induction false} AllowedPerOpening(ws: Cut, a: real, b: real)
    requires FixedWindows(ws)
    ensures NonByeIn(AllowedOf(ws), a, b) <= 100 * (OpeningsIn(ws, a, b).Count() + 1)
  {
    if ws.Cut? {
      var pre, g := ws.earlier, ws.window;
      AllowedPerOpening(pre, a, b);
      AllowedIsBounded(g, a, b);
      NonByeAppend(AllowedOf(pre), Allowed(g), a, b);
      if Opening(g) <= a {
        NoneInsideEarlier(pre, a, b);
      } else if Opening(g) > b {
        NoneInsideWindow(g, a, b);
      }
    }
  }

  lemma AllowedBound(ws: Cut, a: real, b: real)
    requires FixedWindows(ws) && a < b
    ensures NonByeIn(AllowedOf(ws), a, b) <= 100 * (Ceiling((b - a) / 60.0) + 1)
  {
    AllowedPerOpening(ws, a, b);
    OpeningsAreSpaced(ws, a, b);
    SpacedCount(OpeningsIn(ws, a, b), 60.0, a, b);
  }

  /** Over whole runs: at most 100 * (ceil(T / 60) + 1) messages other than BYE are dispatched
      for one peer in any closed interval of length T > 0. */
  lemma DispatchBound(h: Trace, a: real, b: real)
    requires Timed(h) && a < b
    ensures NonByeIn(Passed(h), a, b) <= 100 * (Ceiling((b - a) / 60.0) + 1)
  {
    var ws := Windows(Counted(h));
    assert FixedWindows(ws) && Passed(h) == AllowedOf(ws) by {
      CountedIsTimed(h);
      WindowsPartition(Counted(h));
      CounterTracksWindows(h);
    }
    AllowedBound(ws, a, b);
  }

  // ---------------------------------------------------------------- HELLO and BYE

  /** Some HELLO was let through at time t. */
  ghost predicate AcceptedHelloAt(h: Trace, t: real) {
    h.Then? && (AcceptedHelloAt(h.before, t)
                || (h.last.kind == Hello && h.last.time == t && LastVerdict(h) != HelloFlood))
  }

  lemma {:induction false} LastHelloIsLatest(h: Trace)
    requires Timed(h)
    ensures var t := StateAfter(h).lastHello;
            && t >= 0.0
            && (t == 0.0 || AcceptedHelloAt(h, t))
            && (forall t' :: AcceptedHelloAt(h, t') ==> t' <= t)
            && (h.Then? ==> t <= h.last.time)
  {
    if h.Then? { LastHelloIsLatest(h.before); }
  }

  /** A HELLO is refused exactly when one was accepted less than 60 s before, or the clock
      itself still reads less than 60 s (0.0 stands in for a peer never heard of). */
  lemma HelloRefusedIff(h: Trace)
    requires Timed(h) && h.Then? && h.last.kind == Hello
    ensures LastVerdict(h) == HelloFlood <==>
            (h.last.time < 60.0 || exists t :: AcceptedHelloAt(h.before, t) && h.last.time - t < 60.0)
  {
    LastHelloIsLatest(h.before);
    var t := StateAfter(h.before).lastHello;
    assert t != 0.0 ==> AcceptedHelloAt(h.before, t);
  }

  lemma AcceptedHellosAreSpaced(h: Trace, t: real)
    requires Timed(h) && h.Then? && h.last.kind == Hello && LastVerdict(h) != HelloFlood
    requires AcceptedHelloAt(h.before, t)
    ensures h.last.time - t >= 60.0
  {
    LastHelloIsLatest(h.before);
  }

  // ---------------------------------------------------------------- the limiter of a node

  class Limiter {
    var msgCount: map<string, (nat, real)>
    var helloCount: map<string, real>
    /** The messages each peer address has sent so far. */
    ghost var traces: map<string, Trace>

    ghost function TraceOf(peer: string): Trace
      reads this
    {
      if peer in traces then traces[peer] else Start
    }

    ghost function StateOf(peer: string): PeerState
      reads this
    {
      PeerState(if peer in helloCount then helloCount[peer] else 0.0,
                if peer in msgCount then Window(msgCount[peer].0, msgCount[peer].1) else NoWindow)
    }

    /** The two tables hold, for every peer, the outcome of that peer's own messages alone. */
    ghost predicate Valid()
      reads this
    {
      forall peer :: StateOf(peer) == StateAfter(TraceOf(peer))
    }

    constructor ()
      ensures Valid() && traces == map[]
    {
      msgCount := map[];
      helloCount := map[];
      traces := map[];
    }

    method Admit(peer: string, kind: Kind, now: real) returns (v: Verdict)
      requires Valid()
      modifies this
      ensures Valid()
      ensures TraceOf(peer) == Then(old(TraceOf(peer)), Msg(kind, now))
      ensures v == LastVerdict(TraceOf(peer))
      ensures forall other :: other != peer ==> TraceOf(other) == old(TraceOf(other))
    {
      ghost var before := StateOf(peer);
      traces := traces[peer := Then(TraceOf(peer), Msg(kind, now))];
      var last := if peer in helloCount then helloCount[peer] else 0.0;
      if kind == Hello && now - last < HELLO_GAP {
        v := HelloFlood;
      } else {
        if kind == Hello {
          helloCount := helloCount[peer := now];
        }
        var count, start := 0, now;
        if peer in msgCount {
          count, start := msgCount[peer].0, msgCount[peer].1;
        }
        if now - start > WINDOW {
          count, start := 0, now;
        }
        count := count + 1;
        msgCount := msgCount[peer := (count, start)];
        v := if kind == Bye || count <= LIMIT then Dispatched else OverLimit;
      }
      assert Check(before, Msg(kind, now)) == (StateOf(peer), v);
      forall p
        ensures StateOf(p) == StateAfter(TraceOf(p))
      {
        if p != peer { assert StateOf(p) == old(StateOf(p)) && TraceOf(p) == old(TraceOf(p)); }
      }
    }
  }
}
