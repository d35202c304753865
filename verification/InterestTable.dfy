/** The interest-based routing table: what each peer offers, what it looks for, and the
    forwarding index from a capability to the peers that registered it. */
module InterestTable {

  type Addr = string

  /** The three dictionaries of the table. */
  datatype Routes = Routes(caps: map<Addr, set<string>>, interests: map<Addr, set<string>>,
                           forwarding: map<string, set<Addr>>)

  const NO_ROUTES := Routes(map[], map[], map[])

  function PeersFor(t: Routes, c: string): set<Addr> {
    if c in t.forwarding then t.forwarding[c] else {}
  }

  function CapsOf(t: Routes, p: Addr): set<string> {
    if p in t.caps then t.caps[p] else {}
  }

  /** Registration only ever adds to the index: what p registered earlier stays in it. */
  function Register(t: Routes, p: Addr, caps: set<string>, interests: set<string>): Routes {
    Routes(t.caps[p := caps], t.interests[p := interests],
           map c | c in t.forwarding.Keys + caps :: if c in caps then PeersFor(t, c) + {p} else t.forwarding[c])
  }

  /** Removal cleans the index for the capabilities p has now. */
  function Remove(t: Routes, p: Addr): Routes {
    Routes(t.caps - {p}, t.interests - {p},
           map c | c in t.forwarding :: if c in CapsOf(t, p) then t.forwarding[c] - {p} else t.forwarding[c])
  }

  /** An INTEREST_UPDATE registers the sender again with the capabilities it already has. */
  function UpdateInterests(t: Routes, p: Addr, interests: set<string>): Routes {
    Register(t, p, CapsOf(t, p), interests)
  }

  // ---------------------------------------------------------------- histories

  datatype Event = Registered(peer: Addr, caps: set<string>, interests: set<string>) | Removed(peer: Addr)

  /** The calls made on a table so far, the latest one outermost. */
  datatype History = Fresh | Then(before: History, event: Event)

  function Replay(h: History): Routes {
    match h
    case Fresh => NO_ROUTES
    case Then(b, Registered(p, caps, interests)) => Register(Replay(b), p, caps, interests)
    case Then(b, Removed(p)) => Remove(Replay(b), p)
  }

  /** The peer's last registration, if no removal came after it. */
  ghost predicate Known(h: History, p: Addr) {
    h.Then? && if h.event.peer == p then h.event.Registered? else Known(h.before, p)
  }

  ghost function CurrentCaps(h: History, p: Addr): set<string> {
    match h
    case Fresh => {}
    case Then(b, Registered(q, caps, _)) => if q == p then caps else CurrentCaps(b, p)
    case Then(b, Removed(q)) => if q == p then {} else CurrentCaps(b, p)
  }

  /** p registered c at some point, and was not removed later while c was among its capabilities. */
  ghost predicate Indexed(h: History, p: Addr, c: string) {
    h.Then? &&
    match h.event
    case Registered(q, caps, _) => (q == p && c in caps) || Indexed(h.before, p, c)
    case Removed(q) => Indexed(h.before, p, c) && !(q == p && c in CurrentCaps(h.before, p))
  }

  /** The last registration that dropped c from p's capabilities has not been made good
      by a registration of p with c. */
  ghost predicate Dropped(h: History, p: Addr, c: string) {
    h.Then? &&
    if h.event.Registered? && h.event.peer == p then
      c !in h.event.caps && (c in CurrentCaps(h.before, p) || Dropped(h.before, p, c))
    else Dropped(h.before, p, c)
  }

  /** What the table remembers about a peer is its last registration. */
  lemma {:induction false} TableAgreesWithHistory(h: History)
    ensures forall p :: p in Replay(h).caps <==> Known(h, p)
    ensures forall p :: CapsOf(Replay(h), p) == CurrentCaps(h, p)
    ensures Replay(h).caps.Keys == Replay(h).interests.Keys
  {
    if h.Then? { TableAgreesWithHistory(h.before); }
  }

  /** The interests of the last registration. */
  ghost function CurrentInterests(h: History, p: Addr): set<string> {
    match h
    case Fresh => {}
    case Then(b, Registered(q, _, interests)) => if q == p then interests else CurrentInterests(b, p)
    case Then(b, Removed(_)) => CurrentInterests(b, p)
  }

  /** The interests the table holds for a known peer are those of its last registration. */
  lemma {:induction false} InterestsAgreeWithHistory(h: History, p: Addr)
    ensures p in Replay(h).interests <==> Known(h, p)
    ensures p in Replay(h).interests ==> Replay(h).interests[p] == CurrentInterests(h, p)
  {
    if h.Then? { InterestsAgreeWithHistory(h.before, p); }
  }

  /** The forwarding index is exactly what the history says, for every peer and capability. */
  lemma {:induction false} IndexAgreesWithHistory(h: History, p: Addr, c: string)
    ensures p in PeersFor(Replay(h), c) <==> Indexed(h, p, c)
  {
    if h.Then? {
      IndexAgreesWithHistory(h.before, p, c);
      TableAgreesWithHistory(h.before);
      if h.event.Removed? { assert CapsOf(Replay(h.before), p) == CurrentCaps(h.before, p); }
    }
  }

  lemma {:induction false} IndexedIffCurrentOrDropped(h: History, p: Addr, c: string)
    ensures Indexed(h, p, c) <==> c in CurrentCaps(h, p) || Dropped(h, p, c)
    ensures !(c in CurrentCaps(h, p) && Dropped(h, p, c))
  {
    if h.Then? { IndexedIffCurrentOrDropped(h.before, p, c); }
  }

  /** Every capability a peer has now is indexed. */
  lemma IndexCoversCaps(h: History, p: Addr, c: string)
    requires c in CapsOf(Replay(h), p)
    ensures p in PeersFor(Replay(h), c)
  {
    TableAgreesWithHistory(h);
    IndexAgreesWithHistory(h, p, c);
    IndexedIffCurrentOrDropped(h, p, c);
  }

  /** A peer is indexed for a capability it does not have now exactly when a registration
      dropped that capability and none restored it: the removal of the peer does not help. */
  lemma StaleEntryIffDropped(h: History, p: Addr, c: string)
    ensures p in PeersFor(Replay(h), c) && c !in CapsOf(Replay(h), p) <==> Dropped(h, p, c)
  {
    TableAgreesWithHistory(h);
    IndexAgreesWithHistory(h, p, c);
    IndexedIffCurrentOrDropped(h, p, c);
  }

  ghost predicate ExactIndex(t: Routes) {
    forall p, c :: p in PeersFor(t, c) <==> c in CapsOf(t, p)
  }

  ghost predicate NothingDropped(h: History) {
    forall p, c :: !Dropped(h, p, c)
  }

  /** The index is the exact inverse of the capability map iff no drop is outstanding. */
  lemma IndexIsExactIffNothingDropped(h: History)
    ensures ExactIndex(Replay(h)) <==> NothingDropped(h)
  {
    forall p, c
      ensures (p in PeersFor(Replay(h), c) <==> c in CapsOf(Replay(h), p)) || Dropped(h, p, c)
    {
      StaleEntryIffDropped(h, p, c);
      if c in CapsOf(Replay(h), p) { IndexCoversCaps(h, p, c); }
    }
    if !NothingDropped(h) {
      var p, c :| Dropped(h, p, c);
      StaleEntryIffDropped(h, p, c);
    }
  }

  /** No registration takes a capability away from a peer. */
  ghost predicate NeverShrinks(h: History) {
    h.Then? ==> NeverShrinks(h.before)
                && (h.event.Registered? ==> CurrentCaps(h.before, h.event.peer) <= h.event.caps)
  }

  lemma {:induction false} NothingDroppedWithoutShrinking(h: History, p: Addr, c: string)
    requires NeverShrinks(h)
    ensures !Dropped(h, p, c)
  {
    if h.Then? { NothingDroppedWithoutShrinking(h.before, p, c); }
  }

  /** A removed peer can stay in the index for good. */
  lemma RemovalCanLeaveARoute(p: Addr, c: string)
    ensures var h := Then(Then(Then(Fresh, Registered(p, {c}, {})), Registered(p, {}, {})), Removed(p));
            p !in Replay(h).caps && p in PeersFor(Replay(h), c)
  {
    var h := Then(Then(Then(Fresh, Registered(p, {c}, {})), Registered(p, {}, {})), Removed(p));
    assert Dropped(h.before, p, c) by { assert CurrentCaps(h.before.before, p) == {c}; }
    assert Dropped(h, p, c);
    StaleEntryIffDropped(h, p, c);
  }

  /** An INTEREST_UPDATE never changes which peers are found for a capability, nor what any peer offers;
      it makes its sender known. */
  lemma UpdateKeepsIndex(h: History, p: Addr, interests: set<string>)
    ensures var t, t' := Replay(h), UpdateInterests(Replay(h), p, interests);
            && (forall c :: PeersFor(t', c) == PeersFor(t, c))
            && (forall q :: CapsOf(t', q) == CapsOf(t, q))
            && t'.caps.Keys == t.caps.Keys + {p}
  {
    var t := Replay(h);
    var t' := UpdateInterests(t, p, interests);
    forall c
      ensures PeersFor(t', c) == PeersFor(t, c)
    {
      if c in CapsOf(t, p) { IndexCoversCaps(h, p, c); }
    }
  }

  // ---------------------------------------------------------------- who might know about a capability

  /** The part of an interest before its first ':'. */
  function Head(interest: string): string {
    if interest == "" || interest[0] == ':' then "" else [interest[0]] + Head(interest[1..])
  }

  predicate Related(capability: string, interests: set<string>) {
    exists i :: i in interests && Head(i) <= capability
  }

  ghost function Direct(t: Routes, capability: string, exclude: set<Addr>): set<Addr> {
    PeersFor(t, capability) - exclude
  }

  ghost function Interested(t: Routes, capability: string, exclude: set<Addr>): set<Addr> {
    set p | p in t.interests && p !in exclude && Related(capability, t.interests[p])
  }

  ghost function Anyone(t: Routes, exclude: set<Addr>): set<Addr> {
    t.caps.Keys - exclude
  }

  /** The first nonempty tier. */
  ghost function Candidates(t: Routes, capability: string, exclude: set<Addr>): set<Addr> {
    if Direct(t, capability, exclude) != {} then Direct(t, capability, exclude)
    else if Interested(t, capability, exclude) != {} then Interested(t, capability, exclude)
    else Anyone(t, exclude)
  }

  /** What is looked for in an interest is all of it, or the part that ends before its first colon. */
  lemma {:induction false} HeadEndsAtColon(i: string)
    ensures Head(i) <= i && ':' !in Head(i) && (Head(i) == i || i[|Head(i)|] == ':')
  {
    if i != "" && i[0] != ':' { HeadEndsAtColon(i[1..]); }
  }

  ghost predicate SomeIndexed(t: Routes, capability: string, exclude: set<Addr>) {
    exists p :: p in PeersFor(t, capability) && p !in exclude
  }

  ghost predicate SomeInterested(t: Routes, capability: string, exclude: set<Addr>) {
    exists p :: p in t.interests && p !in exclude && Related(capability, t.interests[p])
  }

  /** Who is named: only peers that are not excluded; those indexed for the capability; if there are none, those with
      an interest whose head the capability begins with; and if there are none either, everybody known. */
  lemma TiersInTurn(t: Routes, capability: string, exclude: set<Addr>, p: Addr)
    ensures p in Candidates(t, capability, exclude) <==>
            && p !in exclude
            && (if SomeIndexed(t, capability, exclude) then p in PeersFor(t, capability)
                else if SomeInterested(t, capability, exclude) then
                  p in t.interests && exists i :: i in t.interests[p] && Head(i) <= capability
                else p in t.caps)
  {
    if SomeIndexed(t, capability, exclude) {
      var q :| q in PeersFor(t, capability) && q !in exclude;
      assert q in Direct(t, capability, exclude);
    }
    if SomeInterested(t, capability, exclude) {
      var q :| q in t.interests && q !in exclude && Related(capability, t.interests[q]);
      assert q in Interested(t, capability, exclude);
    }
  }

  /** A query finds nobody exactly when every peer known or indexed for the capability is excluded. */
  lemma NobodyIffAllExcluded(h: History, capability: string, exclude: set<Addr>)
    ensures Candidates(Replay(h), capability, exclude) == {} <==>
            Replay(h).caps.Keys + PeersFor(Replay(h), capability) <= exclude
  {
    TableAgreesWithHistory(h);
    var t := Replay(h);
    if Candidates(t, capability, exclude) == {} {
      assert forall p :: p in t.caps.Keys && p !in exclude ==> p in Anyone(t, exclude);
      assert forall p :: p in PeersFor(t, capability) && p !in exclude ==> p in Direct(t, capability, exclude);
    }
  }

  // ---------------------------------------------------------------- the table itself

  /** s lists the elements of peers, each once. */
  ghost predicate Lists(s: seq<Addr>, peers: set<Addr>) {
    && (forall p :: p in s <==> p in peers)
    && (forall i, j :: 0 <= i < j < |s| ==> s[i] != s[j])
  }

  lemma ListsOneMore(s: seq<Addr>, peers: set<Addr>, p: Addr)
    requires Lists(s, peers) && p !in peers
    ensures Lists(s + [p], peers + {p})
  {
  }

  class Table {
    var peerCaps: map<Addr, set<string>>
    var peerInterests: map<Addr, set<string>>
    var forwarding: map<string, set<Addr>>
    ghost var history: History

    ghost function Model(): Routes
      reads this
    {
      Routes(peerCaps, peerInterests, forwarding)
    }

    ghost predicate Valid()
      reads this
    {
      Model() == Replay(history)
    }

    constructor ()
      ensures Valid() && history == Fresh
    {
      peerCaps := map[];
      peerInterests := map[];
      forwarding := map[];
      history := Fresh;
    }

    method RegisterPeer(p: Addr, agents: seq<string>, models: seq<string>, tools: seq<string>, interests: seq<string>)
      requires Valid()
      modifies this
      ensures Valid()
      ensures history == Then(old(history), Registered(p, set c | c in agents + models + tools, set i | i in interests))
    {
      var names := agents + models + tools;
      var capSet := SetOf(names);
      var interestSet := SetOf(interests);
      peerCaps := peerCaps[p := capSet];
      peerInterests := peerInterests[p := interestSet];
      AddToIndex(p, capSet);
      history := Then(history, Registered(p, capSet, interestSet));
    }

    static method SetOf(names: seq<string>) returns (s: set<string>)
      ensures s == set c | c in names
    {
      s := {};
      for i := 0 to |names|
        invariant s == set c | c in names[..i]
      {
        assert names[..i + 1] == names[..i] + [names[i]];
        s := s + {names[i]};
      }
      assert names[..|names|] == names;
    }

    method AddToIndex(p: Addr, capSet: set<string>)
      modifies this`forwarding
      ensures forwarding == Register(old(Model()), p, capSet, {}).forwarding
    {
      ghost var before := forwarding;
      var todo := capSet;
      while todo != {}
        invariant todo <= capSet
        invariant forwarding.Keys == before.Keys + (capSet - todo)
        invariant forall c :: c in forwarding ==>
                    forwarding[c] == (if c in before then before[c] else {}) + (if c in capSet - todo then {p} else {})
        decreases todo
      {
        var c :| c in todo;
        var peers := if c in forwarding then forwarding[c] else {};
        forwarding := forwarding[c := peers + {p}];
        todo := todo - {c};
      }
    }

    method RemovePeer(p: Addr)
      requires Valid()
      modifies this
      ensures Valid() && history == Then(old(history), Removed(p))
    {
      var oldCaps := if p in peerCaps then peerCaps[p] else {};
      peerCaps := peerCaps - {p};
      DropFromIndex(p, oldCaps);
      peerInterests := peerInterests - {p};
      history := Then(history, Removed(p));
    }

    method DropFromIndex(p: Addr, oldCaps: set<string>)
      modifies this`forwarding
      ensures forwarding.Keys == old(forwarding).Keys
      ensures forall c :: c in forwarding ==>
                forwarding[c] == (if c in oldCaps then old(forwarding)[c] - {p} else old(forwarding)[c])
    {
      ghost var before := forwarding;
      var todo := oldCaps;
      while todo != {}
        invariant todo <= oldCaps
        invariant forwarding.Keys == before.Keys
        invariant forall c :: c in forwarding ==>
                    forwarding[c] == if c in oldCaps - todo then before[c] - {p} else before[c]
        decreases todo
      {
        var c :| c in todo;
        if c in forwarding {
          forwarding := forwarding[c := forwarding[c] - {p}];
        }
        todo := todo - {c};
      }
    }

    method FindPeerFor(capability: string) returns (found: bool, peer: Addr)
      ensures found <==> PeersFor(Model(), capability) != {}
      ensures found ==> peer in PeersFor(Model(), capability)
    {
      var peers := if capability in forwarding then forwarding[capability] else {};
      found, peer := false, "";
      if peers != {} {
        found := true;
        peer :| peer in peers;
      }
    }

    method QueryPeers(capability: string, exclude: set<Addr>) returns (results: seq<Addr>)
      ensures Lists(results, Candidates(Model(), capability, exclude))
    {
      var direct := if capability in forwarding then forwarding[capability] else {};
      results := ListWithout(direct, exclude);
      if results == [] {
        assert Direct(Model(), capability, exclude) == {};
        results := ListInterested(capability, exclude);
        if results == [] {
          assert Interested(Model(), capability, exclude) == {};
          results := ListWithout(peerCaps.Keys, exclude);
        } else {
          assert results[0] in Interested(Model(), capability, exclude);
        }
      } else {
        assert results[0] in Direct(Model(), capability, exclude);
      }
    }

    static method ListWithout(peers: set<Addr>, exclude: set<Addr>) returns (results: seq<Addr>)
      ensures Lists(results, peers - exclude)
    {
      results := [];
      var todo := peers;
      while todo != {}
        invariant todo <= peers
        invariant Lists(results, peers - exclude - todo)
        decreases todo
      {
        var p :| p in todo;
        if p !in exclude {
          ListsOneMore(results, peers - exclude - todo, p);
          results := results + [p];
        }
        todo := todo - {p};
      }
    }

    method ListInterested(capability: string, exclude: set<Addr>) returns (results: seq<Addr>)
      ensures Lists(results, Interested(Model(), capability, exclude))
    {
      ghost var wanted := Interested(Model(), capability, exclude);
      results := [];
      var todo := peerInterests.Keys;
      while todo != {}
        invariant todo <= peerInterests.Keys
        invariant Lists(results, wanted - todo)
        decreases todo
      {
        var p :| p in todo;
        if p !in exclude && Related(capability, peerInterests[p]) {
          ListsOneMore(results, wanted - todo, p);
          results := results + [p];
        }
        todo := todo - {p};
      }
    }
  }
}
