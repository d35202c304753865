/** Connections, the connection table, the routing table and the rate limiter of one node
    together. A step is the code between two points where a coroutine may be suspended;
    all connections interleave freely. */
module Mesh {
  import opened PeerTable
  import RT = InterestTable
  import RL = RateLimiter

  datatype Phase = Handshaking | Open | Ended

  /** A connection: open from its entry into the table until its read loop has sent the final BYE. */
  datatype Conn = Conn(key: Addr, phase: Phase, closed: bool)

  /** The capability names of a HELLO, by category. */
  datatype Caps = Caps(agents: seq<string>, models: seq<string>, tools: seq<string>) {
    function Names(): set<string> {
      set c | c in agents + models + tools
    }
  }

  datatype Message =
    | Hello(caps: Caps, interests: seq<string>)
    | HelloAck(caps: Caps, interests: seq<string>)
    | InterestUpdate(interests: seq<string>)
    | Bye
    | Unrelated

  datatype State = State(conns: map<nat, Conn>, peers: Peers, calls: RT.History, limits: map<Addr, RL.PeerState>)

  const INITIAL := State(map[], NoPeers, RT.Fresh, map[])

  datatype Step =
    | Accept(c: nat)
    | Reject(c: nat)
    | Establish(c: nat, id: string, sock: string, hello: Message, now: real)
    | Receive(c: nat, msg: Message, now: real)
    | Purge(key: Addr, now: real)
    | EndLoop(c: nat, now: real)

  function Routes(s: State): RT.Routes {
    RT.Replay(s.calls)
  }

  function KindOf(m: Message): RL.Kind {
    match m
    case Hello(_, _) => RL.Hello
    case Bye => RL.Bye
    case _ => RL.Other
  }

  function LimitOf(s: State, key: Addr): RL.PeerState {
    if key in s.limits then s.limits[key] else RL.UNKNOWN_PEER
  }

  /** The handlers, up to their first suspension, for a message that passed the limiter. */
  function Handle(calls: RT.History, key: Addr, m: Message): RT.History {
    match m
    case Hello(caps, interests) => RT.Then(calls, RT.Registered(key, caps.Names(), set i | i in interests))
    case HelloAck(caps, interests) => RT.Then(calls, RT.Registered(key, caps.Names(), set i | i in interests))
    case InterestUpdate(interests) =>
      RT.Then(calls, RT.Registered(key, RT.CapsOf(RT.Replay(calls), key), set i | i in interests))
    case Bye => RT.Then(calls, RT.Removed(key))
    case Unrelated => calls
  }

  /** The message dispatcher. */
  function Dispatch(s: State, key: Addr, m: Message, now: real): State {
    var (limit, verdict) := RL.Check(LimitOf(s, key), RL.Msg(KindOf(m), now));
    s.(limits := s.limits[key := limit],
       calls := if verdict == RL.Dispatched then Handle(s.calls, key, m) else s.calls)
  }

  function Close(s: State, cs: set<nat>): State {
    s.(conns := map c | c in s.conns :: if c in cs then s.conns[c].(closed := true) else s.conns[c])
  }

  predicate Enabled(s: State, a: Step) {
    match a
    case Accept(c) => c !in s.conns
    case Reject(c) => c in s.conns && s.conns[c].phase == Handshaking
    case Establish(c, id, _, hello, _) =>
      c in s.conns && s.conns[c].phase == Handshaking && PlainId(id) && (hello.Hello? || hello.HelloAck?)
    case Receive(c, _, _) => c in s.conns && s.conns[c].phase == Open
    case Purge(key, _) => s.peers.Has(key)
    case EndLoop(c, _) => c in s.conns && s.conns[c].phase == Open
  }

  function Apply(s: State, a: Step): State
    requires Enabled(s, a)
  {
    match a
    case Accept(c) => s.(conns := s.conns[c := Conn("", Handshaking, false)])
    case Reject(c) => s.(conns := s.conns[c := Conn("", Ended, true)])
    case Establish(c, id, sock, hello, now) =>
      var key := Key(id, sock);
      var s1 := Close(s, s.peers.StaleConns(id));
      var s2 := s1.(conns := s1.conns[c := Conn(key, Open, false)], peers := s.peers.Install(id, sock, c));
      Dispatch(s2, key, hello, now)
    case Receive(c, m, now) => Dispatch(s, s.conns[c].key, m, now)
    case Purge(key, now) =>
      Dispatch(Close(s, {s.peers.Get(key)}).(peers := s.peers.Pop(key)), key, Bye, now)
    case EndLoop(c, now) =>
      var key := s.conns[c].key;
      Dispatch(s.(conns := s.conns[c := Conn(key, Ended, true)], peers := s.peers.Pop(key)), key, Bye, now)
  }

  datatype Run = Begin | Do(before: Run, step: Step)

  ghost predicate Legal(r: Run)
    decreases r, 0
  {
    r.Do? ==> Legal(r.before) && Enabled(After(r.before), r.step)
  }

  ghost function After(r: Run): State
    requires Legal(r)
    decreases r, 1
  {
    if r.Begin? then INITIAL else Apply(After(r.before), r.step)
  }

  // ---------------------------------------------------------------- what a message and a step do

  /** A HELLO or HELLO_ACK makes its sender known with the names of all three categories and its interests, adds it to
      the index for each name, and says nothing about anybody else. */
  lemma RegistrationEffect(h: RT.History, key: Addr, m: Message)
    requires m.Hello? || m.HelloAck?
    ensures var t, t' := RT.Replay(h), RT.Replay(Handle(h, key, m));
            && key in t'.caps && key in t'.interests
            && (forall c :: c in t'.caps[key] <==> c in m.caps.agents || c in m.caps.models || c in m.caps.tools)
            && (forall i :: i in t'.interests[key] <==> i in m.interests)
            && (forall c :: RT.PeersFor(t', c) == RT.PeersFor(t, c) + (if c in t'.caps[key] then {key} else {}))
            && t'.caps == t.caps[key := t'.caps[key]] && t'.interests == t.interests[key := t'.interests[key]]
  {
    var t, t' := RT.Replay(h), RT.Replay(Handle(h, key, m));
    forall c
      ensures RT.PeersFor(t', c) == RT.PeersFor(t, c) + (if c in t'.caps[key] then {key} else {})
    {
    }
  }

  /** An INTEREST_UPDATE replaces the interests of its sender and leaves all capabilities and the index alone. */
  lemma UpdateEffect(h: RT.History, key: Addr, interests: seq<string>)
    ensures var t, t' := RT.Replay(h), RT.Replay(Handle(h, key, InterestUpdate(interests)));
            && (forall c :: RT.PeersFor(t', c) == RT.PeersFor(t, c))
            && (forall p :: RT.CapsOf(t', p) == RT.CapsOf(t, p))
            && key in t'.interests && (forall i :: i in t'.interests[key] <==> i in interests)
            && t'.interests == t.interests[key := t'.interests[key]] && t'.caps.Keys == t.caps.Keys + {key}
  {
    RT.UpdateKeepsIndex(h, key, set i | i in interests);
  }

  /** A BYE makes its sender unknown and takes it out of the index for the capabilities it has now. */
  lemma ByeEffect(h: RT.History, key: Addr)
    ensures var t, t' := RT.Replay(h), RT.Replay(Handle(h, key, Bye));
            && t'.caps == t.caps - {key} && t'.interests == t.interests - {key}
            && forall c :: RT.PeersFor(t', c) == RT.PeersFor(t, c) - (if c in RT.CapsOf(t, key) then {key} else {})
  {
  }

  /** The place of a message in the window of its sender. */
  function PlaceOf(limit: RL.PeerState, now: real): nat {
    if limit.window.NoWindow? || now - limit.window.start > 60.0 then 1 else limit.window.count + 1
  }

  /** Which messages reach their handler: no HELLO within 60 s of the last one accepted from its sender, and otherwise
      every BYE and the first 100 messages of a window. A refused HELLO leaves the limiter as it was. */
  lemma DispatchIff(s: State, key: Addr, m: Message, now: real)
    ensures var s' := Dispatch(s, key, m, now);
            var limit := if key in s.limits then s.limits[key] else RL.PeerState(0.0, RL.NoWindow);
            var soon := m.Hello? && now - limit.lastHello < 60.0;
            && s'.conns == s.conns && s'.peers == s.peers
            && s'.calls == (if !soon && (m.Bye? || PlaceOf(limit, now) <= 100) then Handle(s.calls, key, m) else s.calls)
            && s'.limits.Keys == s.limits.Keys + {key}
            && (forall k :: k in s.limits && k != key ==> s'.limits[k] == s.limits[k])
            && (soon ==> s'.limits[key] == limit)
            && (!soon ==>
                  && s'.limits[key].lastHello == (if m.Hello? then now else limit.lastHello)
                  && s'.limits[key].window.Window? && s'.limits[key].window.count == PlaceOf(limit, now)
                  && s'.limits[key].window.start ==
                       (if PlaceOf(limit, now) == 1 && (limit.window.NoWindow? || now - limit.window.start > 60.0) then now
                        else limit.window.start))
  {
  }

  /** The connection that a step is about. */
  function Subject(s: State, a: Step): nat
    requires Enabled(s, a)
  {
    match a
    case Accept(c) => c
    case Reject(c) => c
    case Establish(c, _, _, _, _) => c
    case Receive(c, _, _) => c
    case Purge(key, _) => s.peers.Get(key)
    case EndLoop(c, _) => c
  }

  /** What the step makes of the connection it is about. */
  lemma SubjectEffect(s: State, a: Step)
    requires Enabled(s, a) && Inv(s)
    ensures var c, conns := Subject(s, a), Apply(s, a).conns;
            && c in conns
            && (a.Accept? ==> conns[c].phase == Handshaking)
            && (a.Reject? ==> conns[c].phase == Ended && conns[c].closed)
            && (a.Establish? ==> conns[c] == Conn(Key(a.id, a.sock), Open, false) && Apply(s, a).peers.Has(conns[c].key))
            && (a.Receive? ==> conns[c] == s.conns[c])
            && (a.Purge? ==> conns[c] == s.conns[c].(closed := true) && !Apply(s, a).peers.Has(a.key))
            && (a.EndLoop? ==> conns[c] == Conn(s.conns[c].key, Ended, true) && !Apply(s, a).peers.Has(s.conns[c].key))
  {
    match a
    case Establish(c, id, sock, hello, now) =>
      PutEffect(s.peers.RemoveStale(id), Key(id, sock), c);
    case Purge(key, now) => PopEffect(s.peers, key);
    case EndLoop(c, now) => PopEffect(s.peers, s.conns[c].key);
    case _ =>
  }

  /** What it makes of the others: only a replacement touches one, the listed connection of the same identity, and it
      closes it. */
  lemma BystanderEffect(s: State, a: Step, d: nat)
    requires Enabled(s, a) && Inv(s) && d in s.conns && d != Subject(s, a)
    ensures var d' := Apply(s, a).conns;
            && d in d'
            && d'[d].key == s.conns[d].key && d'[d].phase == s.conns[d].phase
            && (d'[d].closed <==> s.conns[d].closed || (a.Establish? && ListsFor(s.peers, a.id, d)))
  {
    if a.Establish? {
      ReplacementCloses(s.peers, a.id);
      FirstMatchIsOldest(s.peers, a.id);
    }
  }

  /** And of the table: a purge and the end of a loop take one key out, a replacement is that of PeerTable. */
  lemma TableEffect(s: State, a: Step, k: Addr)
    requires Enabled(s, a)
    ensures var t := Apply(s, a).peers;
            && (a.Accept? || a.Reject? || a.Receive? ==> t == s.peers)
            && (a.Establish? ==> t == s.peers.Install(a.id, a.sock, a.c))
            && (a.Purge? || a.EndLoop? ==>
                  var gone := if a.Purge? then a.key else s.conns[a.c].key;
                  && (t.Has(k) <==> s.peers.Has(k) && k != gone)
                  && (t.Has(k) ==> t.Get(k) == s.peers.Get(k)))
  {
    if a.Purge? { PopEffect(s.peers, a.key); }
    if a.EndLoop? { PopEffect(s.peers, s.conns[a.c].key); }
  }

  /** Which message a step hands to the dispatcher: the HELLO of a connection that joins, what arrives, and a BYE for a
      purged key and at the end of every loop. */
  lemma StepDispatches(s: State, a: Step)
    requires Enabled(s, a)
    ensures var s' := Apply(s, a);
            && (a.Accept? || a.Reject? ==> s'.calls == s.calls && s'.limits == s.limits)
            && (a.Establish? ==> DispatchesAs(s, s', Key(a.id, a.sock), a.hello, a.now))
            && (a.Receive? ==> DispatchesAs(s, s', s.conns[a.c].key, a.msg, a.now))
            && (a.Purge? ==> DispatchesAs(s, s', a.key, Bye, a.now))
            && (a.EndLoop? ==> DispatchesAs(s, s', s.conns[a.c].key, Bye, a.now))
  {
  }

  predicate DispatchesAs(s: State, s': State, key: Addr, m: Message, now: real) {
    s'.calls == Dispatch(s, key, m, now).calls && s'.limits == Dispatch(s, key, m, now).limits
  }

  /** The table lists connection d under a key of this identity. */
  ghost predicate ListsFor(t: Peers, id: string, d: nat) {
    exists k :: t.Has(k) && Matches(k, id) && t.Get(k) == d
  }

  // ---------------------------------------------------------------- invariants

  /** Some connection under this key still owes its final BYE. */
  ghost predicate ByeOutstanding(s: State, key: Addr) {
    exists c :: c in s.conns && s.conns[c].phase == Open && s.conns[c].key == key
  }

  ghost predicate TableListsOpenConnections(s: State) {
    forall k :: s.peers.Has(k) ==>
      var c := s.peers.Get(k);
      c in s.conns && s.conns[c].phase == Open && s.conns[c].key == k && !s.conns[c].closed
  }

  ghost predicate RoutesAreBacked(s: State) {
    forall p :: p in Routes(s).caps ==> ByeOutstanding(s, p)
  }

  ghost predicate Inv(s: State) {
    s.peers.Unique() && TableListsOpenConnections(s) && RoutesAreBacked(s)
  }

  /** A dispatched message makes at most its own sender known; a BYE is always dispatched and forgets its sender. */
  lemma DispatchEffect(s: State, key: Addr, m: Message, now: real)
    ensures var s' := Dispatch(s, key, m, now);
            && s'.conns == s.conns && s'.peers == s.peers
            && (forall p :: p in Routes(s').caps ==> p == key || p in Routes(s).caps)
            && (m.Bye? ==> s'.calls == RT.Then(s.calls, RT.Removed(key)) && key !in Routes(s').caps)
  {
  }

  lemma EstablishKeepsTable(s: State, a: Step)
    requires a.Establish? && Enabled(s, a) && Inv(s)
    ensures Apply(s, a).peers.Unique() && TableListsOpenConnections(Apply(s, a))
  {
    var key := Key(a.id, a.sock);
    var s' := Apply(s, a);
    InstallReplacesIdentity(s.peers, a.id, a.sock, a.c);
    FirstMatchIsOldest(s.peers, a.id);
    var s1 := Close(s, s.peers.StaleConns(a.id));
    DispatchEffect(s1.(conns := s1.conns[a.c := Conn(key, Open, false)],
                       peers := s.peers.Install(a.id, a.sock, a.c)), key, a.hello, a.now);
    forall k | s'.peers.Has(k) && k != key
      ensures var c := s'.peers.Get(k);
              c in s'.conns && s'.conns[c].phase == Open && s'.conns[c].key == k && !s'.conns[c].closed
    {
      var c := s.peers.Get(k);
      assert s.conns[c].key == k && c != a.c;
      assert c !in s.peers.StaleConns(a.id);
    }
  }

  lemma EstablishKeepsRoutes(s: State, a: Step)
    requires a.Establish? && Enabled(s, a) && Inv(s)
    ensures RoutesAreBacked(Apply(s, a))
  {
    var key := Key(a.id, a.sock);
    var s' := Apply(s, a);
    var s1 := Close(s, s.peers.StaleConns(a.id));
    DispatchEffect(s1.(conns := s1.conns[a.c := Conn(key, Open, false)],
                       peers := s.peers.Install(a.id, a.sock, a.c)), key, a.hello, a.now);
    assert a.c in s'.conns && s'.conns[a.c].key == key;
    forall p | p in Routes(s).caps
      ensures ByeOutstanding(s', p)
    {
      var c :| c in s.conns && s.conns[c].phase == Open && s.conns[c].key == p;
      assert c in s'.conns && s'.conns[c].phase == Open && s'.conns[c].key == p;
    }
  }

  lemma BackedByOthers(s: State, s': State, gone: set<nat>, key: Addr)
    requires RoutesAreBacked(s)
    requires forall p :: p in Routes(s').caps ==> p in Routes(s).caps
    requires key !in Routes(s').caps
    requires forall c :: c in s.conns && c !in gone ==>
               c in s'.conns && s'.conns[c].phase == s.conns[c].phase && s'.conns[c].key == s.conns[c].key
    requires forall c :: c in gone && c in s.conns ==> s.conns[c].key == key
    ensures RoutesAreBacked(s')
  {
    forall p | p in Routes(s').caps
      ensures ByeOutstanding(s', p)
    {
      var c :| c in s.conns && s.conns[c].phase == Open && s.conns[c].key == p;
      assert c in s'.conns;
    }
  }

  lemma StepKeepsInv(s: State, a: Step)
    requires Enabled(s, a) && Inv(s)
    ensures Inv(Apply(s, a))
  {
    var s' := Apply(s, a);
    match a
    case Accept(c) => BackedBySame(s, s', c);
    case Reject(c) => BackedBySame(s, s', c);
    case Establish(c, id, sock, hello, now) =>
      EstablishKeepsTable(s, a);
      EstablishKeepsRoutes(s, a);
    case Receive(c, m, now) =>
      DispatchEffect(s, s.conns[c].key, m, now);
      assert ByeOutstanding(s, s.conns[c].key);
      assert forall p :: ByeOutstanding(s, p) ==> ByeOutstanding(s', p);
    case Purge(key, now) =>
      PopEffect(s.peers, key);
      DispatchEffect(Close(s, {s.peers.Get(key)}).(peers := s.peers.Pop(key)), key, Bye, now);
      BackedByOthers(s, s', {}, key);
    case EndLoop(c, now) =>
      var key := s.conns[c].key;
      PopEffect(s.peers, key);
      DispatchEffect(s.(conns := s.conns[c := Conn(key, Ended, true)], peers := s.peers.Pop(key)), key, Bye, now);
      BackedByOthers(s, s', {c}, key);
  }

  lemma BackedBySame(s: State, s': State, c: nat)
    requires Inv(s) && s'.peers == s.peers && s'.calls == s.calls
    requires c in s.conns ==> s.conns[c].phase == Handshaking
    requires forall d :: d in s.conns && d != c ==> d in s'.conns && s'.conns[d] == s.conns[d]
    ensures Inv(s')
  {
    forall p | p in Routes(s').caps
      ensures ByeOutstanding(s', p)
    {
      assert ByeOutstanding(s, p) by { assert p in Routes(s).caps; }
      var d :| d in s.conns && s.conns[d].phase == Open && s.conns[d].key == p;
      assert d in s'.conns;
    }
  }

  /** In every reachable state the table has one entry per identity and lists only open connections,
      and every known peer address belongs to a connection whose final BYE is still to come. */
  lemma {:induction false} EveryRunKeepsInv(r: Run)
    requires Legal(r)
    ensures Inv(After(r))
  {
    if r.Do? {
      EveryRunKeepsInv(r.before);
      StepKeepsInv(After(r.before), r.step);
    }
  }

  // ---------------------------------------------------------------- what follows for routes

  /** Every closed connection has finished its read loop. */
  ghost predicate Settled(s: State) {
    forall c :: c in s.conns && s.conns[c].phase == Open ==> !s.conns[c].closed
  }

  /** Once closed loops have finished, every known peer has a live connection. */
  lemma NoDeadPeerOnceSettled(r: Run, p: Addr)
    requires Legal(r) && Settled(After(r)) && p in Routes(After(r)).caps
    ensures exists c :: c in After(r).conns && After(r).conns[c] == Conn(p, Open, false)
  {
    EveryRunKeepsInv(r);
    var s := After(r);
    var c :| c in s.conns && s.conns[c].phase == Open && s.conns[c].key == p;
    assert s.conns[c] == Conn(p, Open, false);
  }

  /** A peer that is found for a capability but has no connection left was left in the index by a
      registration that dropped the capability, and by nothing else. */
  lemma DeadRouteIffDropped(r: Run, p: Addr, capability: string)
    requires Legal(r) && !ByeOutstanding(After(r), p)
    ensures p in RT.PeersFor(Routes(After(r)), capability) <==> RT.Dropped(After(r).calls, p, capability)
  {
    EveryRunKeepsInv(r);
    RT.StaleEntryIffDropped(After(r).calls, p, capability);
    assert p !in Routes(After(r)).caps;
  }

  /** A node that offers a capability in its HELLO and none in a later HELLO_ACK, and whose connection ends. */
  function ShrinkingRun(id: string, sock: string, capability: string): Run {
    Do(Do(Do(Do(Begin, Accept(0)),
      Establish(0, id, sock, Hello(Caps([capability], [], []), []), 100.0)),
      Receive(0, HelloAck(Caps([], [], []), []), 101.0)),
      EndLoop(0, 102.0))
  }

  /** After the HELLO of the run. */
  lemma HelloRegisters(id: string, sock: string, capability: string)
    requires PlainId(id)
    ensures var r := ShrinkingRun(id, sock, capability).before.before;
            && Legal(r) && After(r).conns == map[0 := Conn(Key(id, sock), Open, false)]
            && After(r).peers == Peers(NoPeers, Key(id, sock), 0)
            && After(r).limits == map[Key(id, sock) := RL.PeerState(100.0, RL.Window(1, 100.0))]
            && After(r).calls == RT.Then(RT.Fresh, RT.Registered(Key(id, sock), {capability}, {}))
  {
    var r := ShrinkingRun(id, sock, capability).before.before;
    assert Legal(Begin) && Legal(r.before);
    var s := After(r.before);
    assert s == INITIAL.(conns := map[0 := Conn("", Handshaking, false)]);
    assert Caps([capability], [], []).Names() == {capability};
    assert Close(s, {}).conns == s.conns;
    assert (set i: string | i in []) == {};
  }

  /** And after the HELLO_ACK. */
  lemma AckDropsCapability(id: string, sock: string, capability: string)
    requires PlainId(id)
    ensures var r := ShrinkingRun(id, sock, capability).before;
            && Legal(r) && After(r).conns == map[0 := Conn(Key(id, sock), Open, false)]
            && After(r).peers == Peers(NoPeers, Key(id, sock), 0)
            && After(r).calls == RT.Then(RT.Then(RT.Fresh, RT.Registered(Key(id, sock), {capability}, {})),
                                         RT.Registered(Key(id, sock), {}, {}))
  {
    var r := ShrinkingRun(id, sock, capability).before;
    HelloRegisters(id, sock, capability);
    assert Caps([], [], []).Names() == {};
    assert (set i: string | i in []) == {};
    assert Enabled(After(r.before), r.step);
  }

  /** A dead route: nothing is connected, and the address is still found for the capability. */
  lemma ShrinkingPeerLeavesDeadRoute(id: string, sock: string, capability: string)
    requires PlainId(id)
    ensures var r := ShrinkingRun(id, sock, capability);
            && Legal(r) && After(r).peers == NoPeers && !ByeOutstanding(After(r), Key(id, sock))
            && Key(id, sock) !in Routes(After(r)).caps
            && Key(id, sock) in RT.PeersFor(Routes(After(r)), capability)
  {
    var key := Key(id, sock);
    var r := ShrinkingRun(id, sock, capability);
    AckDropsCapability(id, sock, capability);
    var s := After(r.before);
    assert Enabled(s, r.step) && s.peers.Pop(key) == NoPeers;
    DispatchEffect(s.(conns := s.conns[0 := Conn(key, Ended, true)], peers := NoPeers), key, Bye, 102.0);
    RT.RemovalCanLeaveARoute(key, capability);
  }

  // ---------------------------------------------------------------- replacement

  /** The end of a read loop removes the entry of its own key and no other, whichever connection owns it. */
  lemma LoopEndRemovesOwnKeyOnly(s: State, c: nat, now: real, k: Addr)
    requires Enabled(s, EndLoop(c, now)) && s.peers.Has(k)
    ensures var s' := Apply(s, EndLoop(c, now));
            && (s'.peers.Has(k) <==> k != s.conns[c].key)
            && (s'.peers.Has(k) ==> s'.peers.Get(k) == s.peers.Get(k))
  {
    PopEffect(s.peers, s.conns[c].key);
  }

  /** When a node comes back under another address, the cleanup of its old connection leaves the new one in place. */
  lemma OldLoopSparesReplacement(s: State, old': nat, a: Step, now: real)
    requires Inv(s) && a.Establish? && Enabled(s, a)
    requires old' in s.conns && s.conns[old'].phase == Open && s.conns[old'].key != Key(a.id, a.sock)
    ensures var s1 := Apply(s, a);
            && Enabled(s1, EndLoop(old', now))
            && var s2 := Apply(s1, EndLoop(old', now));
               s2.peers.Has(Key(a.id, a.sock)) && s2.peers.Get(Key(a.id, a.sock)) == a.c
  {
    InstallReplacesIdentity(s.peers, a.id, a.sock, a.c);
    LoopEndRemovesOwnKeyOnly(Apply(s, a), old', now, Key(a.id, a.sock));
  }

  /** Every live open connection is in the table, so messages can be sent over it. */
  ghost predicate LiveAreListed(s: State) {
    forall c :: c in s.conns && s.conns[c].phase == Open && !s.conns[c].closed ==>
      s.peers.Has(s.conns[c].key) && s.peers.Get(s.conns[c].key) == c
  }

  ghost predicate AlwaysListed(r: Run)
    requires Legal(r)
  {
    LiveAreListed(After(r)) && (r.Do? ==> AlwaysListed(r.before))
  }

  /** The entry under this connection's key is its own, or there is none. */
  predicate OwnsItsKey(s: State, c: nat)
    requires c in s.conns
  {
    s.peers.Has(s.conns[c].key) ==> s.peers.Get(s.conns[c].key) == c
  }

  /** No read loop ends while its key belongs to another connection. */
  ghost predicate NoForeignCleanup(r: Run)
    requires Legal(r)
  {
    r.Do? ==> NoForeignCleanup(r.before) && (r.step.EndLoop? ==> OwnsItsKey(After(r.before), r.step.c))
  }

  lemma EstablishKeepsListed(s: State, a: Step)
    requires a.Establish? && Enabled(s, a) && Inv(s) && LiveAreListed(s)
    ensures LiveAreListed(Apply(s, a))
  {
    var s' := Apply(s, a);
    InstallReplacesIdentity(s.peers, a.id, a.sock, a.c);
    FirstMatchIsOldest(s.peers, a.id);
    forall c | c in s'.conns && s'.conns[c].phase == Open && !s'.conns[c].closed && c != a.c
      ensures s'.peers.Has(s'.conns[c].key) && s'.peers.Get(s'.conns[c].key) == c
    {
      var k := s.conns[c].key;
      assert s.peers.Has(k) && s.peers.Get(k) == c;
      MatchingEntryIsStale(s.peers, a.id, k);
    }
  }

  lemma MatchingEntryIsStale(t: Peers, id: string, k: Addr)
    requires t.Unique() && PlainId(id) && t.Has(k)
    ensures Matches(k, id) ==> t.StaleConns(id) == {t.Get(k)}
  {
    FirstMatchIsOldest(t, id);
    if Matches(k, id) { LookupIsUnambiguous(t, id, k, t.FirstMatch(id)); }
  }

  /** Exactly the cleanup of a key that belongs to another connection loses a live connection. */
  lemma LoopEndKeepsListedIff(s: State, c: nat, now: real)
    requires Enabled(s, EndLoop(c, now)) && Inv(s) && LiveAreListed(s)
    ensures LiveAreListed(Apply(s, EndLoop(c, now))) <==> OwnsItsKey(s, c)
  {
    var key := s.conns[c].key;
    var s' := Apply(s, EndLoop(c, now));
    PopEffect(s.peers, key);
    if !OwnsItsKey(s, c) {
      var d := s.peers.Get(key);
      assert s'.conns[d] == s.conns[d] == Conn(key, Open, false);
    }
  }

  lemma StepKeepsListedIff(s: State, a: Step)
    requires Enabled(s, a) && Inv(s) && LiveAreListed(s)
    ensures LiveAreListed(Apply(s, a)) <==> (a.EndLoop? ==> OwnsItsKey(s, a.c))
  {
    match a
    case Establish(_, _, _, _, _) => EstablishKeepsListed(s, a);
    case EndLoop(c, now) => LoopEndKeepsListedIff(s, c, now);
    case Purge(key, _) => PopEffect(s.peers, key);
    case _ =>
  }

  /** Over whole runs: live connections stay in the table throughout iff no loop cleans up a key it lost. */
  lemma {:induction false} AlwaysListedIffNoForeignCleanup(r: Run)
    requires Legal(r)
    ensures AlwaysListed(r) <==> NoForeignCleanup(r)
  {
    if r.Do? {
      AlwaysListedIffNoForeignCleanup(r.before);
      EveryRunKeepsInv(r.before);
      if NoForeignCleanup(r.before) { StepKeepsListedIff(After(r.before), r.step); }
    }
  }

  /** Then, once closed loops have finished, every known peer is in the connection table. */
  lemma RoutesWithinTableOnceSettled(r: Run, p: Addr)
    requires Legal(r) && NoForeignCleanup(r) && Settled(After(r)) && p in Routes(After(r)).caps
    ensures After(r).peers.Has(p)
  {
    NoDeadPeerOnceSettled(r, p);
    AlwaysListedIffNoForeignCleanup(r);
  }

  /** No connection is established under the key of one that is still open. */
  ghost predicate FreshKeys(r: Run)
    requires Legal(r)
  {
    r.Do? ==>
      && FreshKeys(r.before)
      && (r.step.Establish? ==> !ByeOutstanding(After(r.before), Key(r.step.id, r.step.sock)))
  }

  ghost predicate OpenKeysDiffer(s: State) {
    forall c, d ::
      && c in s.conns && d in s.conns && s.conns[c].phase == Open && s.conns[d].phase == Open
      && s.conns[c].key == s.conns[d].key
      ==> c == d
  }

  /** Only an establishment opens a connection or gives it a key. */
  lemma OpenBeforeOrEstablished(s: State, a: Step, c: nat)
    requires Enabled(s, a) && c in Apply(s, a).conns && Apply(s, a).conns[c].phase == Open
    ensures (c in s.conns && s.conns[c].phase == Open && s.conns[c].key == Apply(s, a).conns[c].key)
            || (a.Establish? && c == a.c && Apply(s, a).conns[c].key == Key(a.id, a.sock))
  {
  }

  lemma OpenKeysStep(s: State, a: Step)
    requires Enabled(s, a) && OpenKeysDiffer(s)
    requires a.Establish? ==> !ByeOutstanding(s, Key(a.id, a.sock))
    ensures OpenKeysDiffer(Apply(s, a))
  {
    var conns := Apply(s, a).conns;
    forall c, d | c in conns && d in conns && conns[c].phase == Open && conns[d].phase == Open && conns[c].key == conns[d].key
      ensures c == d
    {
      OpenBeforeOrEstablished(s, a, c);
      OpenBeforeOrEstablished(s, a, d);
    }
  }

  lemma {:induction false} FreshKeysKeepOpenKeysDifferent(r: Run)
    requires Legal(r) && FreshKeys(r)
    ensures OpenKeysDiffer(After(r))
  {
    if r.Do? {
      FreshKeysKeepOpenKeysDifferent(r.before);
      OpenKeysStep(After(r.before), r.step);
    }
  }

  /** The documented case: nodes that come back under new addresses never lose their new entry. */
  lemma {:induction false} NewAddressesAreSafe(r: Run)
    requires Legal(r) && FreshKeys(r)
    ensures NoForeignCleanup(r)
  {
    if r.Do? {
      NewAddressesAreSafe(r.before);
      EveryRunKeepsInv(r.before);
      FreshKeysKeepOpenKeysDifferent(r.before);
    }
  }

  /** Two connections of one node under one and the same address: the cleanup of the first takes
      the second out of the table, although it is open and live. */
  function SameAddressRun(id: string, sock: string): Run {
    var hello := HelloAck(Caps([], [], []), []);
    Do(Do(Do(Do(Do(Begin, Accept(0)), Accept(1)),
      Establish(0, id, sock, hello, 100.0)), Establish(1, id, sock, hello, 200.0)), EndLoop(0, 300.0))
  }

  lemma SameAddressOrphansReplacement(id: string, sock: string)
    requires PlainId(id)
    ensures var r := SameAddressRun(id, sock);
            && Legal(r) && !After(r).peers.Has(Key(id, sock))
            && 1 in After(r).conns && After(r).conns[1] == Conn(Key(id, sock), Open, false)
  {
    var r := SameAddressRun(id, sock);
    var r4 := r.before;
    var r3 := r4.before;
    var r2 := r3.before;
    assert Legal(r2.before) && Legal(r2);
    assert After(r2).conns == map[0 := Conn("", Handshaking, false), 1 := Conn("", Handshaking, false)];
    assert Legal(r3) && After(r3).conns[0] == Conn(Key(id, sock), Open, false);
    assert After(r3).conns[1] == Conn("", Handshaking, false);
    assert Legal(r4) && After(r4).conns[1] == Conn(Key(id, sock), Open, false);
    assert After(r4).conns[0].phase == Open && After(r4).conns[0].key == Key(id, sock);
    PopEffect(After(r4).peers, Key(id, sock));
  }

  /** A node that says BYE on a connection it keeps open. */
  function WireByeRun(id: string, sock: string, capability: string): Run {
    Do(ShrinkingRun(id, sock, capability).before.before, Receive(0, Bye, 101.0))
  }

  /** The other inclusion fails: the route is forgotten at once, the live connection stays in the table. */
  lemma ListedPeerCanBeUnknown(id: string, sock: string, capability: string)
    requires PlainId(id)
    ensures var r := WireByeRun(id, sock, capability);
            && Legal(r) && After(r).peers.Has(Key(id, sock))
            && After(r).conns == map[0 := Conn(Key(id, sock), Open, false)]
            && Key(id, sock) !in Routes(After(r)).caps
            && Key(id, sock) !in RT.PeersFor(Routes(After(r)), capability)
  {
    var key := Key(id, sock);
    var r := WireByeRun(id, sock, capability);
    HelloRegisters(id, sock, capability);
    assert Enabled(After(r.before), r.step);
    DispatchEffect(After(r.before), key, Bye, 101.0);
    assert RT.Replay(RT.Then(RT.Fresh, RT.Registered(key, {capability}, {}))).caps[key] == {capability};
  }

  // ---------------------------------------------------------------- the dispatcher itself

  class Dispatcher {
    const limiter: RL.Limiter
    const table: RT.Table

    ghost predicate Valid()
      reads limiter, table
    {
      limiter.Valid() && table.Valid()
    }

    constructor (limiter: RL.Limiter, table: RT.Table)
      requires limiter.Valid() && table.Valid()
      ensures Valid() && this.limiter == limiter && this.table == table
    {
      this.limiter := limiter;
      this.table := table;
    }

    /** Does what Dispatch says to the limiter state of the sender and to the routing table. */
    method HandleMessage(key: Addr, m: Message, now: real)
      requires Valid()
      modifies limiter, table
      ensures Valid()
      ensures var (limit, verdict) := RL.Check(old(limiter.StateOf(key)), RL.Msg(KindOf(m), now));
              && limiter.StateOf(key) == limit
              && table.history == (if verdict == RL.Dispatched then Handle(old(table.history), key, m)
                                  else old(table.history))
      ensures forall other :: other != key ==> limiter.TraceOf(other) == old(limiter.TraceOf(other))
    {
      var verdict := limiter.Admit(key, KindOf(m), now);
      if verdict == RL.Dispatched {
        match m
        case Hello(caps, interests) => table.RegisterPeer(key, caps.agents, caps.models, caps.tools, interests);
        case HelloAck(caps, interests) => table.RegisterPeer(key, caps.agents, caps.models, caps.tools, interests);
        case InterestUpdate(interests) =>
          var existing := if key in table.peerCaps then table.peerCaps[key] else {};
          var names := RT.Table.ListWithout(existing, {});
          assert (set c | c in names + [] + []) == existing;
          table.RegisterPeer(key, names, [], [], interests);
        case Bye => table.RemovePeer(key);
        case Unrelated =>
      }
    }
  }
}
