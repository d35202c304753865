/** The heartbeat: every round probes each listed peer and drops the dead ones. */
module Heartbeat {
  import opened PeerTable

  const IDLE_TIMEOUT := 90.0

  type LastRead = map<nat, real>

  /** The probe of this peer went well: the send succeeded, and something was read lately. */
  predicate Lively(key: Addr, conn: nat, lastRead: LastRead, now: real, up: set<Addr>) {
    key in up && conn in lastRead && now - lastRead[conn] <= IDLE_TIMEOUT
  }

  /** The entries that a round leaves in the table. */
  function Survivors(t: Peers, lastRead: LastRead, now: real, up: set<Addr>): Peers {
    if t.NoPeers? then t
    else
      var rest := Survivors(t.older, lastRead, now, up);
      if Lively(t.key, t.conn, lastRead, now, up) then Peers(rest, t.key, t.conn) else rest
  }

  lemma {:induction false} SurvivorsHave(t: Peers, lastRead: LastRead, now: real, up: set<Addr>)
    requires t.DistinctKeys()
    ensures var t' := Survivors(t, lastRead, now, up);
            && (forall k :: t'.Has(k) <==> t.Has(k) && Lively(k, t.Get(k), lastRead, now, up))
            && (forall k :: t'.Has(k) ==> t'.Get(k) == t.Get(k))
            && (forall s :: t'.HasIdentity(s) ==> t.HasIdentity(s))
            && t'.DistinctKeys() && (t.Unique() ==> t'.Unique())
  {
    if t.Peers? { SurvivorsHave(t.older, lastRead, now, up); }
  }

  // ---------------------------------------------------------------- how long a silent peer stays

  datatype State = State(peers: Peers, lastRead: LastRead, clock: real, lastRound: real)

  const INITIAL := State(NoPeers, map[], 0.0, 0.0)

  /** A connection joins under its identity, replacing a stale one; it is read; it leaves; a round runs. */
  datatype Event =
    | Join(id: string, sock: string, conn: nat, now: real)
    | Read(conn: nat, now: real)
    | Leave(key: Addr, now: real)
    | Round(now: real, up: set<Addr>)

  /** Rounds are never more than `gap` apart: the interval of 30 seconds, and whatever the timer is late by. */
  predicate Enabled(s: State, e: Event, gap: real) {
    && s.clock <= e.now <= s.lastRound + gap
    && (e.Join? ==> PlainId(e.id) && e.conn !in s.lastRead)
    && (e.Read? ==> e.conn in s.lastRead)
  }

  function Apply(s: State, e: Event): State {
    match e
    case Join(id, sock, conn, now) =>
      s.(peers := s.peers.Install(id, sock, conn), lastRead := s.lastRead[conn := now], clock := now)
    case Read(conn, now) => s.(lastRead := s.lastRead[conn := now], clock := now)
    case Leave(key, now) => s.(peers := s.peers.Pop(key), clock := now)
    case Round(now, up) =>
      s.(peers := Survivors(s.peers, s.lastRead, now, up), clock := now, lastRound := now)
  }

  datatype Run = Start | Do(before: Run, event: Event)

  ghost predicate Legal(r: Run, gap: real) {
    r.Do? ==> Legal(r.before, gap) && Enabled(After(r.before), r.event, gap)
  }

  ghost function After(r: Run): State {
    if r.Start? then INITIAL else Apply(After(r.before), r.event)
  }

  /** At the last round nothing listed had been silent for more than the idle timeout. */
  ghost predicate Fresh(s: State, k: Addr) {
    s.peers.Has(k) ==> s.peers.Get(k) in s.lastRead && s.lastRead[s.peers.Get(k)] >= s.lastRound - IDLE_TIMEOUT
  }

  ghost predicate Inv(s: State, gap: real) {
    s.peers.Unique() && s.lastRound <= s.clock <= s.lastRound + gap && forall k :: Fresh(s, k)
  }

  /** The connection joined or was read last at time t. */
  ghost predicate LastHeardAt(r: Run, conn: nat, t: real) {
    r.Do? &&
    if (r.event.Join? || r.event.Read?) && r.event.conn == conn then t == r.event.now else LastHeardAt(r.before, conn, t)
  }

  /** What the node keeps as the time of the last read is the time it joined or was read last. */
  lemma {:induction false} LastReadIsLastHeard(r: Run, conn: nat, t: real)
    ensures conn in After(r).lastRead && After(r).lastRead[conn] == t <==> LastHeardAt(r, conn, t)
  {
    if r.Do? { LastReadIsLastHeard(r.before, conn, t); }
  }

  lemma JoinKeepsInv(s: State, e: Event, gap: real)
    requires Inv(s, gap) && Enabled(s, e, gap) && e.Join?
    ensures Inv(Apply(s, e), gap)
  {
    var s' := Apply(s, e);
    InstallReplacesIdentity(s.peers, e.id, e.sock, e.conn);
    forall k ensures Fresh(s', k) {
      assert Fresh(s, k);
    }
  }

  lemma OtherKeepsInv(s: State, e: Event, gap: real)
    requires Inv(s, gap) && Enabled(s, e, gap) && !e.Join?
    ensures Inv(Apply(s, e), gap)
  {
    var s' := Apply(s, e);
    if e.Leave? { PopEffect(s.peers, e.key); }
    if e.Round? {
      UniqueHasDistinctKeys(s.peers);
      SurvivorsHave(s.peers, s.lastRead, e.now, e.up);
    }
    forall k ensures Fresh(s', k) {
      assert Fresh(s, k);
    }
  }

  lemma {:induction false} EveryRunKeepsInv(r: Run, gap: real)
    requires Legal(r, gap) && gap >= 0.0
    ensures Inv(After(r), gap)
  {
    if r.Do? {
      EveryRunKeepsInv(r.before, gap);
      if r.event.Join? {
        JoinKeepsInv(After(r.before), r.event, gap);
      } else {
        OtherKeepsInv(After(r.before), r.event, gap);
      }
    }
  }

  /** A peer silent since time t is listed no later than t + 90 + gap, so t + 120 for rounds at most 30 seconds
      apart, and past a round no later than t + 90. */
  lemma SilentPeerIsDropped(r: Run, gap: real, k: Addr) returns (t: real)
    requires Legal(r, gap) && gap >= 0.0 && After(r).peers.Has(k)
    ensures LastHeardAt(r, After(r).peers.Get(k), t) && After(r).clock - t <= 90.0 + gap
    ensures r.Do? && r.event.Round? ==> After(r).clock - t <= 90.0
    ensures var s := After(r); s.peers.Get(k) in s.lastRead && s.lastRead[s.peers.Get(k)] == t
  {
    EveryRunKeepsInv(r, gap);
    assert Fresh(After(r), k);
    t := After(r).lastRead[After(r).peers.Get(k)];
    LastReadIsLastHeard(r, After(r).peers.Get(k), t);
  }

  /** A round drops exactly the peers whose send failed or that were idle for more than 90 seconds. */
  lemma RoundDropsExactlyTheDead(r: Run, gap: real, now: real, up: set<Addr>, k: Addr)
    requires Legal(r, gap) && gap >= 0.0 && Enabled(After(r), Round(now, up), gap) && After(r).peers.Has(k)
    ensures var s, t := After(r), Apply(After(r), Round(now, up)).peers;
            && s.peers.Get(k) in s.lastRead
            && (t.Has(k) <==> k in up && now - s.lastRead[s.peers.Get(k)] <= 90.0)
            && (t.Has(k) ==> t.Get(k) == s.peers.Get(k))
  {
    EveryRunKeepsInv(r, gap);
    assert Fresh(After(r), k);
    UniqueHasDistinctKeys(After(r).peers);
    SurvivorsHave(After(r).peers, After(r).lastRead, now, up);
  }

  // ---------------------------------------------------------------- the code

  function Without(t: Peers, ks: set<Addr>): Peers {
    if t.NoPeers? then t else if t.key in ks then Without(t.older, ks) else Peers(Without(t.older, ks), t.key, t.conn)
  }

  lemma {:induction false} WithoutNothing(t: Peers)
    ensures Without(t, {}) == t
  {
    if t.Peers? { WithoutNothing(t.older); }
  }

  lemma {:induction false} PopWithout(t: Peers, ks: set<Addr>, k: Addr)
    ensures Without(t, ks).Pop(k) == Without(t, ks + {k})
    ensures Without(t, ks).Has(k) <==> t.Has(k) && k !in ks
    ensures Without(t, ks).Has(k) ==> Without(t, ks).Get(k) == t.Get(k)
    ensures !Without(t, ks).Has(k) ==> Without(t, ks + {k}) == Without(t, ks)
  {
    if t.Peers? { PopWithout(t.older, ks, k); }
  }

  lemma {:induction false} SurvivorsAreWithout(t: Peers, lastRead: LastRead, now: real, up: set<Addr>, dead: set<Addr>)
    requires t.DistinctKeys()
    requires forall k :: t.Has(k) ==> (k in dead <==> !Lively(k, t.Get(k), lastRead, now, up))
    ensures Survivors(t, lastRead, now, up) == Without(t, dead)
  {
    if t.Peers? { SurvivorsAreWithout(t.older, lastRead, now, up, dead); }
  }

  class Monitor {
    var peers: Peers
    var lastRead: LastRead
    var closed: set<nat>
    var byes: seq<Addr>

    ghost predicate Valid()
      reads this
    {
      peers.DistinctKeys() && forall k :: peers.Has(k) ==> peers.Get(k) in lastRead
    }

    constructor ()
      ensures Valid() && peers == NoPeers && closed == {} && byes == []
    {
      peers, lastRead, closed, byes := NoPeers, map[], {}, [];
    }

    /** One round without interruption: probe every peer, then drop the dead ones; the handler of this node gets
        one final BYE for each. */
    method Beat(now: real, up: set<Addr>)
      requires Valid()
      modifies `peers, `closed, `byes
      ensures Valid() && peers == Survivors(old(peers), lastRead, now, up)
      ensures forall k :: old(peers).Has(k) && !peers.Has(k) ==> old(peers).Get(k) in closed
      ensures old(closed) <= closed && old(byes) <= byes
      ensures forall k :: k in byes[|old(byes)|..] <==> old(peers).Has(k) && !peers.Has(k)
      ensures forall i, j :: |old(byes)| <= i < j < |byes| ==> byes[i] != byes[j]
    {
      ghost var before := peers;
      var dead := Probe(now, up);
      SurvivorsAreWithout(peers, lastRead, now, up, dead);
      SurvivorsHave(peers, lastRead, now, up);
      Purge(dead);
    }

    method Probe(now: real, up: set<Addr>) returns (dead: set<Addr>)
      requires Valid()
      ensures forall k :: k in dead <==> peers.Has(k) && !Lively(k, peers.Get(k), lastRead, now, up)
    {
      dead := {};
      var keys := peers.Keys();
      KeysAreTheKeys(peers);
      for i := 0 to |keys|
        invariant forall k :: k in dead <==> k in keys[..i] && !Lively(k, peers.Get(k), lastRead, now, up)
      {
        assert keys[..i + 1] == keys[..i] + [keys[i]];
        if keys[i] !in up {
          dead := dead + {keys[i]};
        }
        if now - lastRead[peers.Get(keys[i])] > IDLE_TIMEOUT {
          dead := dead + {keys[i]};
        }
      }
      assert keys[..|keys|] == keys;
    }

    /** Drops every listed key of the set, once each; the keys are those of the table as it is by now. */
    method Purge(dead: set<Addr>)
      modifies `peers, `closed, `byes
      ensures peers == Without(old(peers), dead)
      ensures forall k :: old(peers).Has(k) && k in dead ==> old(peers).Get(k) in closed
      ensures old(closed) <= closed && old(byes) <= byes
      ensures forall k :: k in byes[|old(byes)|..] <==> old(peers).Has(k) && k in dead
      ensures forall i, j :: |old(byes)| <= i < j < |byes| ==> byes[i] != byes[j]
    {
      ghost var before := peers;
      var todo := dead;
      ghost var final: seq<Addr> := [];
      WithoutNothing(peers);
      assert dead - todo == {};
      while todo != {}
        invariant todo <= dead && peers == Without(before, dead - todo) && byes == old(byes) + final
        invariant old(closed) <= closed
        invariant forall k :: before.Has(k) && k in dead && k !in todo ==> before.Get(k) in closed
        invariant forall k :: k in final <==> before.Has(k) && k in dead && k !in todo
        invariant forall i, j :: 0 <= i < j < |final| ==> final[i] != final[j]
        decreases todo
      {
        var addr :| addr in todo;
        PopWithout(before, dead - todo, addr);
        assert dead - (todo - {addr}) == (dead - todo) + {addr};
        if peers.Has(addr) {
          closed := closed + {peers.Get(addr)};
          peers := peers.Pop(addr);
          byes := byes + [addr];
          final := final + [addr];
        }
        todo := todo - {addr};
      }
      assert dead - todo == dead;
    }
  }
}
