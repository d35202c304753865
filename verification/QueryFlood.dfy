/** The QUERY broadcast of the mesh: any number of nodes, any topology, any scheduler.
    Every step names the tables its node has at that moment, so routing and connection
    tables may change arbitrarily between steps. */
module QueryFlood {
  import opened Spacing

  const SEEN_TTL := 60.0

  type NodeId = string
  type Addr = string

  datatype Query = Query(id: string, capability: string, ttl: int, origin: NodeId)

  /** An entry of a connection table: its key, the node at the other end, and the key
      under which that node lists this one. */
  datatype Link = Link(addr: Addr, node: NodeId, reverse: Addr)

  /** What a node knows when it handles a message; sends to addresses outside `up` fail. */
  datatype Tables = Tables(known: set<Addr>, caps: set<string>, links: seq<Link>, up: set<Addr>)

  datatype Action = Ignored | Answered(nodes: set<Addr>) | Forwarded(query: Query) | Expired

  // ---------------------------------------------------------------- one node

  function Forget(seen: map<string, real>, now: real): map<string, real> {
    map id | id in seen && now - seen[id] <= SEEN_TTL :: seen[id]
  }

  /** The nodes named in an answer: every known peer but the asker, and the asker's own
      address once more when this node offers the capability itself. */
  function AnswerNodes(via: Addr, capability: string, t: Tables): set<Addr> {
    (t.known - {via}) + (if capability in t.caps then {via} else {})
  }

  function Handle(self: NodeId, seen: map<string, real>, now: real, via: Addr, q: Query, t: Tables)
    : (map<string, real>, Action)
  {
    if q.origin != "" && q.origin == self then (seen, Ignored)
    else
      var recent := Forget(seen, now);
      if q.id in recent then (recent, Ignored)
      else
        var nodes := AnswerNodes(via, q.capability, t);
        (recent[q.id := now],
         if nodes != {} then Answered(nodes)
         else if q.ttl > 1 then Forwarded(Relayed(self, q))
         else Expired)
  }

  /** The query as a node passes it on: one hop less to go, and marked by this node if nobody has. */
  function Relayed(self: NodeId, q: Query): Query {
    q.(ttl := q.ttl - 1, origin := if q.origin != "" then q.origin else self)
  }

  lemma AnswersNobodyIff(via: Addr, capability: string, t: Tables)
    ensures AnswerNodes(via, capability, t) == {} <==> t.known <= {via} && capability !in t.caps
  {
    if capability in t.caps { assert via in AnswerNodes(via, capability, t); }
    if !(t.known <= {via}) {
      var a :| a in t.known && a != via;
      assert a in AnswerNodes(via, capability, t);
    }
  }

  /** The query is marked by this node, or the node handled it at most 60 s ago. */
  predicate IsStale(self: NodeId, seen: map<string, real>, now: real, q: Query) {
    (q.origin != "" && q.origin == self) || (q.id in seen && now - seen[q.id] <= 60.0)
  }

  /** What the handler decides: it drops a stale query; it answers if it offers the capability or knows anybody but
      the asker, naming those it knows, and the asker's own address if it offers the capability; otherwise it
      forwards a query that has hops left, with one hop less and marked at the latest now. */
  lemma HandleDecides(self: NodeId, seen: map<string, real>, now: real, via: Addr, q: Query, t: Tables)
    ensures var action := Handle(self, seen, now, via, q, t).1;
            && (action.Ignored? <==> IsStale(self, seen, now, q))
            && (action.Answered? <==> !IsStale(self, seen, now, q) && (q.capability in t.caps || !(t.known <= {via})))
            && (action.Answered? ==> forall p :: p in action.nodes <==>
                  (p in t.known && p != via) || (p == via && q.capability in t.caps))
            && (action.Forwarded? <==>
                  !IsStale(self, seen, now, q) && q.capability !in t.caps && t.known <= {via} && q.ttl > 1)
            && (action.Forwarded? ==>
                  action.query == Query(q.id, q.capability, q.ttl - 1, if q.origin == "" then self else q.origin))
  {
    AnswersNobodyIff(via, q.capability, t);
  }

  /** What the handler remembers: a query of its own mark changes nothing; otherwise it forgets what is older than
      60 s and keeps the rest as it is, and it notes a fresh query with the present time. */
  lemma HandleRemembers(self: NodeId, seen: map<string, real>, now: real, via: Addr, q: Query, t: Tables)
    ensures var seen' := Handle(self, seen, now, via, q, t).0;
            && (q.origin != "" && q.origin == self ==> seen' == seen)
            && (q.origin == "" || q.origin != self ==>
                  && q.id in seen'
                  && (forall k :: k != q.id ==> (k in seen' <==> k in seen && now - seen[k] <= 60.0))
                  && (forall k :: k in seen' && k in seen && now - seen[k] <= 60.0 ==> seen'[k] == seen[k])
                  && (!IsStale(self, seen, now, q) ==> seen'[q.id] == now))
  {
  }

  class QueryNode {
    const id: NodeId
    var seen: map<string, real>

    constructor (id: NodeId)
      ensures this.id == id && seen == map[]
    {
      this.id := id;
      seen := map[];
    }

    method OnQuery(via: Addr, q: Query, now: real, t: Tables) returns (action: Action)
      modifies this
      ensures (seen, action) == Handle(id, old(seen), now, via, q, t)
    {
      if q.origin != "" && q.origin == id {
        return Ignored;
      }
      var expired := set k | k in seen && now - seen[k] > SEEN_TTL;
      while expired != {}
        invariant expired <= seen.Keys
        invariant forall k :: k in expired <==> k in seen && now - seen[k] > SEEN_TTL
        invariant Forget(seen, now) == Forget(old(seen), now)
        decreases expired
      {
        var k :| k in expired;
        seen := seen - {k};
        expired := expired - {k};
      }
      assert seen == Forget(old(seen), now);
      if q.id in seen {
        return Ignored;
      }
      seen := seen[q.id := now];
      var nodes, todo := {}, t.known;
      while todo != {}
        invariant todo <= t.known
        invariant nodes == (t.known - todo) - {via}
        decreases todo
      {
        var addr :| addr in todo;
        if addr != via {
          nodes := nodes + {addr};
        }
        todo := todo - {addr};
      }
      assert nodes == t.known - {via};
      if q.capability in t.caps {
        nodes := nodes + {via};
      }
      assert nodes == AnswerNodes(via, q.capability, t);
      if nodes != {} {
        action := Answered(nodes);
      } else if q.ttl > 1 {
        var origin := if q.origin != "" then q.origin else id;
        action := Forwarded(q.(ttl := q.ttl - 1, origin := origin));
      } else {
        action := Expired;
      }
    }
  }

  // ---------------------------------------------------------------- the network

  /** One copy of a query on its way; `hops` counts the links it has travelled, and is not on the wire. */
  datatype Copy = Copy(to: NodeId, via: Addr, query: Query, hops: nat)

  datatype Flight = Empty | Flying(rest: Flight, copy: Copy) {
    function Size(): nat {
      if Empty? then 0 else rest.Size() + 1
    }

    function Get(i: nat): Copy
      requires i < Size()
    {
      if i == rest.Size() then copy else rest.Get(i)
    }

    function Without(i: nat): Flight
      requires i < Size()
    {
      if i == rest.Size() then rest else Flying(rest.Without(i), copy)
    }

    function Plus(more: Flight): Flight {
      match more
      case Empty => this
      case Flying(r, c) => Flying(Plus(r), c)
    }

    ghost predicate All(p: Copy -> bool) {
      Flying? ==> p(copy) && rest.All(p)
    }
  }

  /** The copies one broadcast puts on the wire. */
  function Broadcast(t: Tables, exclude: set<Addr>, q: Query, hops: nat): Flight
    decreases |t.links|
  {
    if t.links == [] then Empty
    else
      var l := t.links[|t.links| - 1];
      var sent := Broadcast(t.(links := t.links[..|t.links| - 1]), exclude, q, hops);
      if l.addr in exclude || l.addr !in t.up then sent else Flying(sent, Copy(l.node, l.reverse, q, hops))
  }

  /** A query that passed both guards of the handler, and how many copies it put on the wire. */
  datatype Event = Event(node: NodeId, id: string, time: real, action: Action, sent: nat)

  datatype Log = Nothing | Entry(before: Log, event: Event) {
    ghost predicate Has(e: Event) {
      Entry? && (event == e || before.Has(e))
    }
  }

  datatype Net = Net(clock: real, seen: map<NodeId, map<string, real>>, flight: Flight, log: Log)

  datatype Step =
    | Deliver(i: nat, now: real, tables: Tables)
    | Lose(i: nat)
    | Initiate(query: Query, tables: Tables)

  function SeenBy(n: Net, u: NodeId): map<string, real> {
    if u in n.seen then n.seen[u] else map[]
  }

  predicate Enabled(n: Net, s: Step) {
    match s
    case Deliver(i, now, _) => i < n.flight.Size() && now >= n.clock
    case Lose(i) => i < n.flight.Size()
    case Initiate(_, _) => true
  }

  /** The copies a delivery puts on the wire. */
  function Sends(action: Action, c: Copy, t: Tables): Flight {
    if action.Forwarded? then Broadcast(t, {c.via}, action.query, c.hops + 1) else Empty
  }

  function Apply(n: Net, s: Step): Net
    requires Enabled(n, s)
  {
    match s
    case Deliver(i, now, t) =>
      var c := n.flight.Get(i);
      var (seen', action) := Handle(c.to, SeenBy(n, c.to), now, c.via, c.query, t);
      var sent := Sends(action, c, t);
      Net(now, n.seen[c.to := seen'], n.flight.Without(i).Plus(sent),
          if action.Ignored? then n.log else Entry(n.log, Event(c.to, c.query.id, now, action, sent.Size())))
    case Lose(i) => n.(flight := n.flight.Without(i))
    case Initiate(q, t) => n.(flight := n.flight.Plus(Broadcast(t, {}, q, 1)))
  }

  /** A finite run, the latest step outermost. */
  datatype Run = Begin | Do(before: Run, step: Step)

  ghost predicate Legal(n0: Net, r: Run)
    decreases r, 0
  {
    r.Do? ==> Legal(n0, r.before) && Enabled(After(n0, r.before), r.step)
  }

  ghost function After(n0: Net, r: Run): Net
    requires Legal(n0, r)
    decreases r, 1
  {
    if r.Begin? then n0 else Apply(After(n0, r.before), r.step)
  }

  /** No node ever has more than D connections. */
  ghost predicate Degree(r: Run, D: nat) {
    r.Do? ==> Degree(r.before, D) && (r.step.Lose? || |r.step.tables.links| <= D)
  }

  // ---------------------------------------------------------------- what a step does

  ghost predicate Carries(f: Flight, c: Copy) {
    f.Flying? && (f.copy == c || Carries(f.rest, c))
  }

  lemma {:induction false} PlusCarries(f: Flight, g: Flight, c: Copy)
    ensures Carries(f.Plus(g), c) <==> Carries(f, c) || Carries(g, c)
    ensures f.Plus(g).Size() == f.Size() + g.Size()
  {
    if g.Flying? { PlusCarries(f, g.rest, c); }
  }

  /** The links over which a broadcast goes. */
  function Usable(t: Tables, exclude: set<Addr>): set<int> {
    set i | 0 <= i < |t.links| && t.links[i].addr !in exclude && t.links[i].addr in t.up
  }

  /** c is the copy of q for one of these links. */
  ghost predicate GoesOut(t: Tables, exclude: set<Addr>, q: Query, hops: nat, c: Copy) {
    exists i :: i in Usable(t, exclude) && c == Copy(t.links[i].node, t.links[i].reverse, q, hops)
  }

  /** Every link that is up and not excluded gets one copy, and no other link gets any. */
  lemma {:induction false} BroadcastUsesEachLink(t: Tables, exclude: set<Addr>, q: Query, hops: nat, c: Copy)
    ensures Broadcast(t, exclude, q, hops).Size() == |Usable(t, exclude)|
    ensures Carries(Broadcast(t, exclude, q, hops), c) <==> GoesOut(t, exclude, q, hops, c)
    decreases |t.links|
  {
    if t.links != [] {
      var last := |t.links| - 1;
      var t' := t.(links := t.links[..last]);
      BroadcastUsesEachLink(t', exclude, q, hops, c);
      assert Usable(t', exclude) == Usable(t, exclude) - {last};
      assert forall i :: i in Usable(t', exclude) ==> t'.links[i] == t.links[i];
    }
  }

  /** A delivery consumes its copy, sets the clock, changes no other node's cache, and logs what the node did unless
      it dropped the query; if it forwards, each usable link but the asker's gets one copy, one hop further. */
  lemma DeliveryEffect(n: Net, s: Step, d: Copy)
    requires s.Deliver? && Enabled(n, s)
    ensures var c, n' := n.flight.Get(s.i), Apply(n, s);
            var (seen', action) := Handle(c.to, SeenBy(n, c.to), s.now, c.via, c.query, s.tables);
            && n'.clock == s.now && SeenBy(n', c.to) == seen'
            && (forall u :: u != c.to ==> SeenBy(n', u) == SeenBy(n, u))
            && (if action.Ignored? then n'.log == n.log
                else n'.log.Entry? && n'.log.before == n.log && n'.log.event.action == action
                     && n'.log.event.node == c.to && n'.log.event.id == c.query.id && n'.log.event.time == s.now
                     && n'.log.event.sent + n.flight.Without(s.i).Size() == n'.flight.Size())
            && n'.flight.Size() ==
                 n.flight.Without(s.i).Size() + (if action.Forwarded? then |Usable(s.tables, {c.via})| else 0)
            && (Carries(n'.flight, d) <==>
                  Carries(n.flight.Without(s.i), d)
                  || (action.Forwarded? && GoesOut(s.tables, {c.via}, action.query, c.hops + 1, d)))
  {
    var c := n.flight.Get(s.i);
    var action := Handle(c.to, SeenBy(n, c.to), s.now, c.via, c.query, s.tables).1;
    PlusCarries(n.flight.Without(s.i), Sends(action, c, s.tables), d);
    if action.Forwarded? { BroadcastUsesEachLink(s.tables, {c.via}, action.query, c.hops + 1, d); }
  }

  /** A query that starts is sent, as it is, over every link that is up. */
  lemma InitiationEffect(n: Net, q: Query, t: Tables, d: Copy)
    ensures var n' := Apply(n, Initiate(q, t));
            && n'.flight.Size() == n.flight.Size() + |Usable(t, {})| && n' == n.(flight := n'.flight)
            && (Carries(n'.flight, d) <==> Carries(n.flight, d) || GoesOut(t, {}, q, 1, d))
  {
    PlusCarries(n.flight, Broadcast(t, {}, q, 1), d);
    BroadcastUsesEachLink(t, {}, q, 1, d);
  }

  // ---------------------------------------------------------------- termination

  /** The most deliveries that one copy with this ttl can still cause, itself included. */
  function Weight(ttl: int, D: nat): nat
    decreases if ttl < 0 then 0 else ttl
  {
    if ttl <= 1 then 1 else 1 + D * Weight(ttl - 1, D)
  }

  function Measure(f: Flight, D: nat): nat {
    match f
    case Empty => 0
    case Flying(r, c) => Measure(r, D) + Weight(c.query.ttl, D)
  }

  lemma {:induction false} MeasureWithout(f: Flight, i: nat, D: nat)
    requires i < f.Size()
    ensures Measure(f, D) == Measure(f.Without(i), D) + Weight(f.Get(i).query.ttl, D)
  {
    if i != f.rest.Size() { MeasureWithout(f.rest, i, D); }
  }

  lemma {:induction false} MeasurePlus(f: Flight, g: Flight, D: nat)
    ensures Measure(f.Plus(g), D) == Measure(f, D) + Measure(g, D)
  {
    if g.Flying? { MeasurePlus(f, g.rest, D); }
  }

  lemma {:induction false} BroadcastSize(t: Tables, exclude: set<Addr>, q: Query, hops: nat, D: nat)
    ensures var b := Broadcast(t, exclude, q, hops);
            b.Size() <= |t.links| && Measure(b, D) == b.Size() * Weight(q.ttl, D)
    decreases |t.links|
  {
    if t.links != [] {
      var t' := t.(links := t.links[..|t.links| - 1]);
      BroadcastSize(t', exclude, q, hops, D);
      OneMore(Broadcast(t', exclude, q, hops).Size(), Weight(q.ttl, D));
    }
  }

  lemma AtMostDTimes(n: nat, D: nat, w: nat)
    requires n <= D
    ensures n * w <= D * w
  {
  }

  /** Every delivery strictly lowers the measure, whatever the tables, the schedule and the caches. */
  lemma DeliveryDecreases(n: Net, s: Step, D: nat)
    requires s.Deliver? && Enabled(n, s) && |s.tables.links| <= D
    ensures Measure(Apply(n, s).flight, D) < Measure(n.flight, D)
  {
    var c := n.flight.Get(s.i);
    var action := Handle(c.to, SeenBy(n, c.to), s.now, c.via, c.query, s.tables).1;
    var sent := Sends(action, c, s.tables);
    MeasureWithout(n.flight, s.i, D);
    MeasurePlus(n.flight.Without(s.i), sent, D);
    if action.Forwarded? {
      BroadcastSize(s.tables, {c.via}, action.query, c.hops + 1, D);
      AtMostDTimes(sent.Size(), D, Weight(c.query.ttl - 1, D));
    }
  }

  function Deliveries(r: Run): nat {
    match r
    case Begin => 0
    case Do(b, s) => Deliveries(b) + (if s.Deliver? then 1 else 0)
  }

  /** The deliveries that the queries initiated during a run can cause. */
  function Injected(r: Run, D: nat): nat {
    match r
    case Begin => 0
    case Do(b, s) => Injected(b, D) + (if s.Initiate? then D * Weight(s.query.ttl, D) else 0)
  }

  /** Every flood ends: a run has no more deliveries than its queries bring in. */
  lemma {:induction false} FloodTerminates(n0: Net, r: Run, D: nat)
    requires Legal(n0, r) && Degree(r, D)
    ensures Deliveries(r) + Measure(After(n0, r).flight, D) <= Measure(n0.flight, D) + Injected(r, D)
  {
    if r.Do? {
      FloodTerminates(n0, r.before, D);
      var n := After(n0, r.before);
      match r.step
      case Deliver(i, now, t) => DeliveryDecreases(n, r.step, D);
      case Lose(i) => MeasureWithout(n.flight, i, D);
      case Initiate(q, t) =>
        BroadcastSize(t, {}, q, 1, D);
        MeasurePlus(n.flight, Broadcast(t, {}, q, 1), D);
        AtMostDTimes(Broadcast(t, {}, q, 1).Size(), D, Weight(q.ttl, D));
    }
  }

  // ---------------------------------------------------------------- what every copy keeps

  lemma {:induction false} AllWithout(f: Flight, i: nat, p: Copy -> bool)
    requires f.All(p) && i < f.Size()
    ensures f.Without(i).All(p) && p(f.Get(i))
  {
    if i != f.rest.Size() { AllWithout(f.rest, i, p); }
  }

  lemma {:induction false} AllPlus(f: Flight, g: Flight, p: Copy -> bool)
    requires f.All(p) && g.All(p)
    ensures f.Plus(g).All(p)
  {
    if g.Flying? { AllPlus(f, g.rest, p); }
  }

  lemma {:induction false} AllBroadcast(t: Tables, exclude: set<Addr>, q: Query, hops: nat, p: Copy -> bool)
    requires forall to, via :: p(Copy(to, via, q, hops))
    ensures Broadcast(t, exclude, q, hops).All(p)
    decreases |t.links|
  {
    if t.links != [] { AllBroadcast(t.(links := t.links[..|t.links| - 1]), exclude, q, hops, p); }
  }

  /** What becomes of a copy when it is passed on over a link to `to`. */
  function NextCopy(c: Copy, to: NodeId, via: Addr): Copy {
    Copy(to, via, Relayed(c.to, c.query), c.hops + 1)
  }

  /** p survives a step if it survives the forwarding of a copy and holds of what is initiated. */
  lemma AllStep(n: Net, s: Step, p: Copy -> bool)
    requires Enabled(n, s) && n.flight.All(p)
    requires forall c, to, via :: p(c) && c.query.ttl > 1 ==> p(NextCopy(c, to, via))
    requires s.Initiate? ==> forall to, via :: p(Copy(to, via, s.query, 1))
    ensures Apply(n, s).flight.All(p)
  {
    match s
    case Deliver(i, now, t) =>
      AllWithout(n.flight, i, p);
      var c := n.flight.Get(i);
      var action := Handle(c.to, SeenBy(n, c.to), now, c.via, c.query, t).1;
      if action.Forwarded? {
        var q', hops' := action.query, c.hops + 1;
        forall to, via
          ensures p(Copy(to, via, q', hops'))
        {
          assert NextCopy(c, to, via) == Copy(to, via, q', hops');
        }
        AllBroadcast(t, {c.via}, action.query, c.hops + 1, p);
        AllPlus(n.flight.Without(i), Sends(action, c, t), p);
      }
    case Lose(i) => AllWithout(n.flight, i, p);
    case Initiate(q, t) =>
      AllBroadcast(t, {}, q, 1, p);
      AllPlus(n.flight, Broadcast(t, {}, q, 1), p);
  }

  /** Every initiation of query `id` in the run satisfies p. */
  ghost predicate Initiations(r: Run, id: string, p: Query -> bool) {
    r.Do? ==> Initiations(r.before, id, p) && (r.step.Initiate? && r.step.query.id == id ==> p(r.step.query))
  }

  ghost predicate NoCopyOf(f: Flight, id: string) {
    f.All((c: Copy) => c.query.id != id)
  }

  lemma {:induction false} AllImplied(f: Flight, p: Copy -> bool, q: Copy -> bool)
    requires f.All(p) && forall c :: p(c) ==> q(c)
    ensures f.All(q)
  {
    if f.Flying? { AllImplied(f.rest, p, q); }
  }

  function HopBudget(id: string, ttl: nat): Copy -> bool {
    (c: Copy) => c.query.id == id ==> 1 <= c.hops && c.hops + (if c.query.ttl < 1 then 1 else c.query.ttl) <= ttl + 1
  }

  lemma {:induction false} HopBudgetKept(n0: Net, r: Run, id: string, ttl: nat)
    requires Legal(n0, r) && NoCopyOf(n0.flight, id)
    requires ttl >= 1 && Initiations(r, id, (q: Query) => q.ttl <= ttl)
    ensures After(n0, r).flight.All(HopBudget(id, ttl))
  {
    if r.Do? {
      HopBudgetKept(n0, r.before, id, ttl);
      AllStep(After(n0, r.before), r.step, HopBudget(id, ttl));
    } else {
      AllImplied(n0.flight, (c: Copy) => c.query.id != id, HopBudget(id, ttl));
    }
  }

  /** No copy travels more links than the ttl its query started with. */
  lemma HopsWithinTtl(n0: Net, r: Run, id: string, ttl: nat)
    requires Legal(n0, r) && NoCopyOf(n0.flight, id)
    requires ttl >= 1 && Initiations(r, id, (q: Query) => q.ttl <= ttl)
    ensures After(n0, r).flight.All((c: Copy) => c.query.id == id ==> c.hops <= ttl)
  {
    HopBudgetKept(n0, r, id, ttl);
    AllImplied(After(n0, r).flight, HopBudget(id, ttl), (c: Copy) => c.query.id == id ==> c.hops <= ttl);
  }

  function MarkedBy(id: string, u: NodeId): Copy -> bool {
    (c: Copy) => c.query.id == id ==> c.query.origin == u
  }

  lemma {:induction false} MarkIsKept(n0: Net, r: Run, id: string, u: NodeId)
    requires Legal(n0, r) && NoCopyOf(n0.flight, id)
    requires u != "" && Initiations(r, id, (q: Query) => q.origin == u)
    ensures After(n0, r).flight.All(MarkedBy(id, u))
  {
    if r.Do? {
      MarkIsKept(n0, r.before, id, u);
      AllStep(After(n0, r.before), r.step, MarkedBy(id, u));
    } else {
      AllImplied(n0.flight, (c: Copy) => c.query.id != id, MarkedBy(id, u));
    }
  }

  ghost predicate NotHandledBy(log: Log, id: string, u: NodeId) {
    forall e :: log.Has(e) && e.id == id ==> e.node != u
  }

  lemma NotHandledStep(n: Net, s: Step, id: string, u: NodeId)
    requires Enabled(n, s) && n.flight.All(MarkedBy(id, u)) && u != "" && NotHandledBy(n.log, id, u)
    ensures NotHandledBy(Apply(n, s).log, id, u)
  {
    if s.Deliver? { AllWithout(n.flight, s.i, MarkedBy(id, u)); }
  }

  /** Every copy of an origin-marked query keeps its mark, and its initiator never handles it. */
  lemma {:induction false} MarkedQueryStaysAway(n0: Net, r: Run, id: string, u: NodeId)
    requires Legal(n0, r) && NoCopyOf(n0.flight, id) && n0.log.Nothing?
    requires u != "" && Initiations(r, id, (q: Query) => q.origin == u)
    ensures After(n0, r).flight.All(MarkedBy(id, u))
    ensures NotHandledBy(After(n0, r).log, id, u)
  {
    MarkIsKept(n0, r, id, u);
    if r.Do? {
      MarkedQueryStaysAway(n0, r.before, id, u);
      NotHandledStep(After(n0, r.before), r.step, id, u);
    }
  }

  // ---------------------------------------------------------------- duplicates

  /** Every handled query is still remembered by its node, or was handled more than 60 s ago. */
  ghost predicate Remembered(n: Net) {
    forall e :: n.log.Has(e) ==>
      && e.time <= n.clock
      && (n.clock - e.time > 60.0 || (e.id in SeenBy(n, e.node) && SeenBy(n, e.node)[e.id] >= e.time))
  }

  /** One node handles one query id only at times more than 60 s apart. */
  ghost predicate Deduplicated(log: Log) {
    log.Entry? ==>
      && Deduplicated(log.before)
      && forall e :: log.before.Has(e) && e.node == log.event.node && e.id == log.event.id ==>
           log.event.time - e.time > 60.0
  }

  lemma DedupStep(n: Net, s: Step)
    requires Enabled(n, s) && Remembered(n) && Deduplicated(n.log)
    ensures Remembered(Apply(n, s)) && Deduplicated(Apply(n, s).log)
  {
    if s.Deliver? {
      var c := n.flight.Get(s.i);
      var n' := Apply(n, s);
      var (seen', action) := Handle(c.to, SeenBy(n, c.to), s.now, c.via, c.query, s.tables);
      forall e | n'.log.Has(e)
        ensures e.time <= n'.clock
        ensures n'.clock - e.time > 60.0 || (e.id in SeenBy(n', e.node) && SeenBy(n', e.node)[e.id] >= e.time)
      {
        if e.node != c.to { assert SeenBy(n', e.node) == SeenBy(n, e.node); }
      }
    }
  }

  /** Over whole runs, from any caches: no node handles a query id twice within 60 s. */
  lemma {:induction false} FloodIsDeduplicated(n0: Net, r: Run)
    requires Legal(n0, r) && n0.log.Nothing?
    ensures Remembered(After(n0, r)) && Deduplicated(After(n0, r).log)
  {
    if r.Do? {
      FloodIsDeduplicated(n0, r.before);
      DedupStep(After(n0, r.before), r.step);
    }
  }

  // ---------------------------------------------------------------- the cost of a flood

  /** The times in [a, b] at which u handled query id. */
  function TimesAt(log: Log, u: NodeId, id: string, a: real, b: real): Times {
    match log
    case Nothing => Never
    case Entry(rest, e) =>
      if e.node == u && e.id == id && a <= e.time <= b then At(TimesAt(rest, u, id, a, b), e.time)
      else TimesAt(rest, u, id, a, b)
  }

  lemma {:induction false} TimesAtAreSpaced(log: Log, u: NodeId, id: string, a: real, b: real)
    requires Deduplicated(log)
    ensures var ts := TimesAt(log, u, id, a, b);
            && ts.SpacedBy(60.0) && ts.Within(a, b)
            && (ts.At? ==> exists e :: log.Has(e) && e.node == u && e.id == id && e.time == ts.t)
  {
    if log.Entry? {
      TimesAtAreSpaced(log.before, u, id, a, b);
      var ts := TimesAt(log.before, u, id, a, b);
      if ts.At? {
        var e :| log.before.Has(e) && e.node == u && e.id == id && e.time == ts.t;
        assert log.Has(e);
      }
      assert log.Has(log.event);
    }
  }

  /** Copies of query id put on the wire in [a, b] by nodes of us that handled it. */
  function CopiesSent(log: Log, us: set<NodeId>, id: string, a: real, b: real): nat {
    match log
    case Nothing => 0
    case Entry(rest, e) =>
      CopiesSent(rest, us, id, a, b) + (if e.node in us && e.id == id && a <= e.time <= b then e.sent else 0)
  }

  ghost predicate FanOut(log: Log, D: nat) {
    log.Entry? ==> FanOut(log.before, D) && log.event.sent <= D
  }

  lemma {:induction false} FanOutIsBounded(n0: Net, r: Run, D: nat)
    requires Legal(n0, r) && Degree(r, D) && n0.log.Nothing?
    ensures FanOut(After(n0, r).log, D)
  {
    if r.Do? {
      FanOutIsBounded(n0, r.before, D);
      if r.step.Deliver? {
        var n := After(n0, r.before);
        var c := n.flight.Get(r.step.i);
        var action := Handle(c.to, SeenBy(n, c.to), r.step.now, c.via, c.query, r.step.tables).1;
        if action.Forwarded? {
          BroadcastSize(r.step.tables, {c.via}, action.query, c.hops + 1, D);
        }
      }
    }
  }

  lemma {:induction false} OneNodeSends(log: Log, u: NodeId, id: string, a: real, b: real, D: nat)
    requires FanOut(log, D)
    ensures CopiesSent(log, {u}, id, a, b) <= TimesAt(log, u, id, a, b).Count() * D
  {
    if log.Entry? { OneNodeSends(log.before, u, id, a, b, D); }
  }

  lemma {:induction false} SplitSenders(log: Log, us: set<NodeId>, u: NodeId, id: string, a: real, b: real)
    requires u in us
    ensures CopiesSent(log, us, id, a, b) == CopiesSent(log, us - {u}, id, a, b) + CopiesSent(log, {u}, id, a, b)
  {
    if log.Entry? { SplitSenders(log.before, us, u, id, a, b); }
  }

  lemma {:induction false} NodesSend(log: Log, us: set<NodeId>, id: string, a: real, b: real, D: nat)
    requires Deduplicated(log) && FanOut(log, D) && a < b
    ensures CopiesSent(log, us, id, a, b) <= |us| * (Ceiling((b - a) / 60.0) * D)
    decreases us
  {
    var k := Ceiling((b - a) / 60.0);
    if us == {} {
      NobodySends(log, id, a, b);
    } else {
      var u :| u in us;
      NodesSend(log, us - {u}, id, a, b, D);
      SplitSenders(log, us, u, id, a, b);
      OneNodeSends(log, u, id, a, b, D);
      TimesAtAreSpaced(log, u, id, a, b);
      SpacedCount(TimesAt(log, u, id, a, b), 60.0, a, b);
      AtMostDTimes(TimesAt(log, u, id, a, b).Count(), k, D);
      OneMore(|us - {u}|, k * D);
      assert |us| == |us - {u}| + 1;
    }
  }

  lemma OneMore(n: nat, w: int)
    ensures n * w + w == (n + 1) * w
  {
  }

  lemma {:induction false} NobodySends(log: Log, id: string, a: real, b: real)
    ensures CopiesSent(log, {}, id, a, b) == 0
  {
    if log.Entry? { NobodySends(log.before, id, a, b); }
  }

  /** In any closed interval of length T > 0, the nodes of a set put at most
      |us| * ceil(T / 60) * D copies of one query on the wire by handling it. */
  lemma FloodCost(n0: Net, r: Run, us: set<NodeId>, id: string, a: real, b: real, D: nat)
    requires Legal(n0, r) && Degree(r, D) && n0.log.Nothing? && a < b
    ensures CopiesSent(After(n0, r).log, us, id, a, b) <= |us| * (Ceiling((b - a) / 60.0) * D)
  {
    FloodIsDeduplicated(n0, r);
    FanOutIsBounded(n0, r, D);
    NodesSend(After(n0, r).log, us, id, a, b, D);
  }

  lemma {:induction false} AbsentNodeSendsNothing(log: Log, u: NodeId, id: string, a: real, b: real)
    requires NotHandledBy(log, id, u)
    ensures CopiesSent(log, {u}, id, a, b) == 0
  {
    if log.Entry? {
      assert log.Has(log.event);
      assert forall e :: log.before.Has(e) ==> log.Has(e);
      AbsentNodeSendsNothing(log.before, u, id, a, b);
    }
  }

  /** Within 60 s an origin-marked flood costs N nodes of degree D at most N * D copies,
      the initiator's own broadcast included. */
  lemma MarkedFloodCost(n0: Net, r: Run, us: set<NodeId>, q: Query, t: Tables, u: NodeId, a: real, D: nat)
    requires Legal(n0, r) && Degree(r, D) && n0.log.Nothing? && NoCopyOf(n0.flight, q.id)
    requires u != "" && u in us && q.origin == u && Initiations(r, q.id, (q': Query) => q'.origin == u)
    requires |t.links| <= D
    ensures Broadcast(t, {}, q, 1).Size() + CopiesSent(After(n0, r).log, us, q.id, a, a + 60.0) <= |us| * D
  {
    var log := After(n0, r).log;
    var b := a + 60.0;
    MarkedQueryStaysAway(n0, r, q.id, u);
    AbsentNodeSendsNothing(log, u, q.id, a, b);
    SplitSenders(log, us, u, q.id, a, b);
    assert (b - a) / 60.0 == 1.0;
    FloodCost(n0, r, us - {u}, q.id, a, b, D);
    BroadcastSize(t, {}, q, 1, D);
    OneMore(|us - {u}|, D);
    assert |us| == |us - {u}| + 1;
  }

  // ---------------------------------------------------------------- unmarked queries, and registered meshes

  const QUIET := Net(0.0, map[], Empty, Nothing)

  /** The tables of x in a triangle with y and z, with nobody registered. */
  function Corner(x: NodeId, y: NodeId, z: NodeId): Tables {
    Tables({}, {}, [Link(y, y, x), Link(z, z, x)], {y, z})
  }

  /** u asks v and w; v asks w, w asks u. The copy that u sent to w is still on its way all the time. */
  function LoopRun(u: NodeId, v: NodeId, w: NodeId, q: Query): Run {
    Do(Do(Do(Do(Begin,
      Initiate(q, Corner(u, w, v))),
      Deliver(1, 0.0, Corner(v, u, w))),
      Deliver(1, 0.0, Corner(w, v, u))),
      Deliver(1, 0.0, Corner(u, w, v)))
  }

  /** A query sent without a mark can come back and be handled by the node that asked. */
  lemma UnmarkedQueryComesHome(u: NodeId, v: NodeId, w: NodeId, q: Query)
    requires u != "" && v != "" && w != "" && u != v && v != w && u != w
    requires q.origin == "" && q.ttl >= 3
    ensures Legal(QUIET, LoopRun(u, v, w, q)) && Degree(LoopRun(u, v, w, q), 2)
    ensures Initiations(LoopRun(u, v, w, q), q.id, (x: Query) => x == q)
    ensures !NotHandledBy(After(QUIET, LoopRun(u, v, w, q)).log, q.id, u)
  {
    var r := LoopRun(u, v, w, q);
    var r3 := r.before;
    var r2 := r3.before;
    var r1 := r2.before;
    var late := Flying(Empty, Copy(w, u, q, 1));
    var n1 := Net(0.0, map[], Flying(late, Copy(v, u, q, 1)), Nothing);
    CornerBroadcast(u, w, v, {}, q, 1);
    EmptyPlus(Flying(late, Copy(v, u, q, 1)));
    assert Legal(QUIET, Begin) && After(QUIET, Begin) == QUIET;
    assert Legal(QUIET, r1) && After(QUIET, r1) == n1;
    var q1 := Relayed(v, q);
    LoopHop(n1, late, u, v, w, q, 1);
    var n2 := Apply(n1, r2.step);
    assert Legal(QUIET, r2) && After(QUIET, r2) == n2;
    var q2 := Relayed(w, q1);
    LoopHop(n2, late, v, w, u, q1, 2);
    var n3 := Apply(n2, r3.step);
    assert Legal(QUIET, r3) && After(QUIET, r3) == n3;
    LoopHop(n3, late, w, u, v, q2, 3);
    assert Legal(QUIET, r) && After(QUIET, r) == Apply(n3, r.step);
    var log := After(QUIET, r).log;
    assert log.Has(log.event);
    LoopRunStartsOnce(u, v, w, q);
  }

  lemma {:induction false} EmptyPlus(f: Flight)
    ensures Empty.Plus(f) == f
  {
    if f.Flying? { EmptyPlus(f.rest); }
  }

  lemma LoopRunStartsOnce(u: NodeId, v: NodeId, w: NodeId, q: Query)
    ensures Degree(LoopRun(u, v, w, q), 2) && Initiations(LoopRun(u, v, w, q), q.id, (x: Query) => x == q)
  {
    var p := (x: Query) => x == q;
    var r1 := Do(Begin, Initiate(q, Corner(u, w, v)));
    var r2 := Do(r1, Deliver(1, 0.0, Corner(v, u, w)));
    var r3 := Do(r2, Deliver(1, 0.0, Corner(w, v, u)));
    assert LoopRun(u, v, w, q) == Do(r3, Deliver(1, 0.0, Corner(u, w, v)));
    assert Degree(Begin, 2) && Initiations(Begin, q.id, p);
    assert Degree(r1, 2) && Initiations(r1, q.id, p);
    assert Degree(r2, 2) && Initiations(r2, q.id, p);
    assert Degree(r3, 2) && Initiations(r3, q.id, p);
  }

  lemma CornerBroadcast(x: NodeId, y: NodeId, z: NodeId, exclude: set<Addr>, q: Query, hops: nat)
    requires y != z && z !in exclude
    ensures var rest := if y in exclude then Empty else Flying(Empty, Copy(y, x, q, hops));
            Broadcast(Corner(x, y, z), exclude, q, hops) == Flying(rest, Copy(z, x, q, hops))
  {
    var t := Corner(x, y, z);
    var t1 := t.(links := t.links[..1]);
    assert t1.links == [Link(y, y, x)];
    assert Broadcast(t1.(links := t1.links[..0]), exclude, q, hops) == Empty;
  }

  /** x has sent a copy to y, which has not seen the query; y sends one on to z. Another copy stays in flight. */
  lemma LoopHop(n: Net, late: Flight, x: NodeId, y: NodeId, z: NodeId, q: Query, hops: nat)
    requires n.flight == Flying(late, Copy(y, x, q, hops)) && late.Size() == 1 && n.clock == 0.0
    requires x != z && q.origin != y && y !in n.seen
    ensures Enabled(n, Deliver(1, 0.0, Corner(y, x, z)))
    ensures var n' := Apply(n, Deliver(1, 0.0, Corner(y, x, z)));
            && n'.clock == 0.0 && n'.seen.Keys == n.seen.Keys + {y}
            && n'.log.Entry? && n'.log.event.node == y && n'.log.event.id == q.id
            && (q.ttl > 1 ==> n'.flight == Flying(late, Copy(z, y, Relayed(y, q), hops + 1)))
  {
    var t := Corner(y, x, z);
    CornerBroadcast(y, x, z, {x}, Relayed(y, q), hops + 1);
    assert AnswerNodes(x, q.capability, t) == {};
    assert Forget(map[], 0.0) == map[];
    assert n.flight.Get(1) == Copy(y, x, q, hops) && n.flight.Without(1) == late;
    assert late.Plus(Flying(Empty, Copy(z, y, Relayed(y, q), hops + 1))) == Flying(late, Copy(z, y, Relayed(y, q), hops + 1));
  }

  /** The loop guard of the handler protects the initiator exactly when the query carries its mark. */
  lemma InitiatorIsSparedIffMarked(u: NodeId, q: Query)
    requires u != "" && q.ttl >= 3 && (q.origin == "" || q.origin == u)
    ensures (forall r :: Legal(QUIET, r) && Initiations(r, q.id, (x: Query) => x == q) ==>
               NotHandledBy(After(QUIET, r).log, q.id, u))
            <==> q.origin == u
  {
    if q.origin == u {
      forall r | Legal(QUIET, r) && Initiations(r, q.id, (x: Query) => x == q)
        ensures NotHandledBy(After(QUIET, r).log, q.id, u)
      {
        SameInitiations(r, q, u);
        MarkedQueryStaysAway(QUIET, r, q.id, u);
      }
    } else {
      var v, w := u + "v", u + "w";
      assert v[|u|] != w[|u|];
      UnmarkedQueryComesHome(u, v, w, q);
    }
  }

  lemma {:induction false} SameInitiations(r: Run, q: Query, u: NodeId)
    requires Initiations(r, q.id, (x: Query) => x == q) && q.origin == u
    ensures Initiations(r, q.id, (x: Query) => x.origin == u)
  {
    if r.Do? { SameInitiations(r.before, q, u); }
  }

  /** A broadcast reaches somebody exactly when a link that is not excluded is up. */
  lemma {:induction false} BroadcastReachesIff(t: Tables, exclude: set<Addr>, q: Query, hops: nat)
    ensures Broadcast(t, exclude, q, hops) != Empty <==>
            exists l :: l in t.links && l.addr !in exclude && l.addr in t.up
    decreases |t.links|
  {
    if t.links != [] {
      var last := |t.links| - 1;
      assert t.links == t.links[..last] + [t.links[last]];
      BroadcastReachesIff(t.(links := t.links[..last]), exclude, q, hops);
    }
  }

  lemma {:induction false} PlusSize(f: Flight, g: Flight)
    ensures f.Plus(g).Size() == f.Size() + g.Size()
  {
    if g.Flying? { PlusSize(f, g.rest); }
  }

  /** A delivered query is passed on, that is, puts a copy on the wire, exactly when it is not marked by this node
      and was not handled in the last 60 s, nobody but the asker is registered, this node does not offer the
      capability, a hop is left, and some link other than the asker's is up. */
  lemma QueryIsPassedOnIff(n: Net, s: Step)
    requires s.Deliver? && Enabled(n, s)
    ensures var c, t := n.flight.Get(s.i), s.tables;
            Apply(n, s).flight != n.flight.Without(s.i) <==>
            && (c.query.origin == "" || c.query.origin != c.to)
            && c.query.id !in Forget(SeenBy(n, c.to), s.now)
            && t.known <= {c.via} && c.query.capability !in t.caps && c.query.ttl > 1
            && exists l :: l in t.links && l.addr != c.via && l.addr in t.up
  {
    var c, t := n.flight.Get(s.i), s.tables;
    var action := Handle(c.to, SeenBy(n, c.to), s.now, c.via, c.query, t).1;
    PlusSize(n.flight.Without(s.i), Sends(action, c, t));
    AnswersNobodyIff(c.via, c.query.capability, t);
    BroadcastReachesIff(t, {c.via}, Relayed(c.to, c.query), c.hops + 1);
  }

  /** A node whose connected peers are all registered never passes a query on: it answers,
      or the asker is the only connection it has. */
  lemma RegisteredNodeForwardsToNobody(n: Net, s: Step)
    requires s.Deliver? && Enabled(n, s)
    requires forall l :: l in s.tables.links ==> l.addr in s.tables.known
    ensures Apply(n, s).flight == n.flight.Without(s.i)
  {
    QueryIsPassedOnIff(n, s);
  }

  /** One registered peer is enough: v is asked by u, knows w, and is connected to x as well; x could have the
      capability, but the query ends at v, with all its hops unused. */
  lemma OneRegisteredPeerStopsQuery()
    ensures var q := Query("id", "capability", 5, "u");
            var n := QUIET.(flight := Flying(Empty, Copy("v", "u", q, 1)));
            var t := Tables({"w"}, {}, [Link("u", "u", "v"), Link("w", "w", "v"), Link("x", "x", "v")], {"u", "w", "x"});
            Enabled(n, Deliver(0, 0.0, t)) && Apply(n, Deliver(0, 0.0, t)).flight == Empty
  {
    var q := Query("id", "capability", 5, "u");
    var n := QUIET.(flight := Flying(Empty, Copy("v", "u", q, 1)));
    var t := Tables({"w"}, {}, [Link("u", "u", "v"), Link("w", "w", "v"), Link("x", "x", "v")], {"u", "w", "x"});
    assert "w" in t.known && n.flight.Get(0) == Copy("v", "u", q, 1) && n.flight.Without(0) == Empty;
    QueryIsPassedOnIff(n, Deliver(0, 0.0, t));
  }
}
