/** The connection table of the TCP manager: an insertion-ordered dictionary from
    "identity@host:port" to a connection, and the replacement of stale connections. */
module PeerTable {

  type Addr = string

  const ID_PREFIX := 12

  /** What the table keeps of a node id. */
  function Short(id: string): string {
    if |id| <= ID_PREFIX then id else id[..ID_PREFIX]
  }

  function Key(id: string, sock: string): Addr {
    Short(id) + "@" + sock
  }

  /** The prefix test behind every lookup by identity. */
  predicate Matches(key: Addr, id: string) {
    Short(id) + "@" <= key
  }

  /** Node ids are base64url text, which has no '@'. */
  predicate PlainId(id: string) {
    '@' !in id
  }

  /** The part of a key before its first '@'. */
  function Identity(key: Addr): string {
    if key == "" || key[0] == '@' then "" else [key[0]] + Identity(key[1..])
  }

  lemma {:induction false} IdentityOfPrefix(s: string, rest: string)
    requires '@' !in s
    ensures Identity(s + "@" + rest) == s
  {
    var key := s + "@" + rest;
    if s == "" {
      assert key[0] == '@';
    } else {
      assert key[1..] == s[1..] + "@" + rest;
      IdentityOfPrefix(s[1..], rest);
    }
  }

  lemma {:induction false} IdentityIsPrefix(key: Addr)
    requires '@' in key
    ensures Identity(key) + "@" <= key && '@' !in Identity(key)
  {
    if key[0] != '@' { IdentityIsPrefix(key[1..]); }
  }

  /** For ids without '@' the prefix test compares identities. */
  lemma MatchesIffSameIdentity(key: Addr, id: string)
    requires PlainId(id) && '@' in key
    ensures Matches(key, id) <==> Identity(key) == Short(id)
  {
    if Matches(key, id) {
      var rest := key[|Short(id)| + 1..];
      assert key == Short(id) + "@" + rest;
      IdentityOfPrefix(Short(id), rest);
    }
    IdentityIsPrefix(key);
  }

  lemma KeyIdentity(id: string, sock: string)
    requires PlainId(id)
    ensures Identity(Key(id, sock)) == Short(id) && '@' in Key(id, sock) && Matches(Key(id, sock), id)
  {
    IdentityOfPrefix(Short(id), sock);
    assert Key(id, sock)[|Short(id)|] == '@';
  }

  /** A key is the first 12 characters of the id, or all of a shorter one, an '@', and the socket address. */
  lemma KeyIsTwelveAtAddress(id: string, sock: string)
    ensures Key(id, sock) == (if |id| >= 12 then id[..12] else id) + "@" + sock
  {
  }

  // ---------------------------------------------------------------- the dictionary

  /** Entries in order of insertion, the newest one outermost. */
  datatype Peers = NoPeers | Peers(older: Peers, key: Addr, conn: nat) {

    predicate Has(k: Addr) {
      Peers? && (key == k || older.Has(k))
    }

    function Get(k: Addr): nat
      requires Has(k)
    {
      if key == k then conn else older.Get(k)
    }

    function Pop(k: Addr): Peers {
      if NoPeers? then this else if key == k then older.Pop(k) else Peers(older.Pop(k), key, conn)
    }

    /** Assignment: an existing key keeps its place. */
    function Put(k: Addr, c: nat): Peers {
      if !Has(k) then Peers(this, k, c)
      else if key == k then Peers(older, key, c)
      else Peers(older.Put(k, c), key, conn)
    }

    function Keys(): seq<Addr> {
      if NoPeers? then [] else older.Keys() + [key]
    }

    predicate SomeMatch(id: string) {
      Peers? && (older.SomeMatch(id) || Matches(key, id))
    }

    /** The oldest key that an id prefix finds. */
    function FirstMatch(id: string): Addr
      requires SomeMatch(id)
    {
      if older.SomeMatch(id) then older.FirstMatch(id) else key
    }

    /** Only the first match goes; a later one, if there is any, stays. */
    function RemoveStale(id: string): Peers {
      if SomeMatch(id) then Pop(FirstMatch(id)) else this
    }

    /** The connection that replacing the identity closes. */
    function StaleConns(id: string): set<nat> {
      if SomeMatch(id) && Has(FirstMatch(id)) then {Get(FirstMatch(id))} else {}
    }

    function Install(id: string, sock: string, c: nat): Peers {
      RemoveStale(id).Put(Key(id, sock), c)
    }

    /** A dictionary has each key once. */
    ghost predicate DistinctKeys() {
      Peers? ==> older.DistinctKeys() && !older.Has(key)
    }

    ghost predicate HasIdentity(s: string) {
      Peers? && (Identity(key) == s || older.HasIdentity(s))
    }

    /** At most one entry per identity. */
    ghost predicate Unique() {
      Peers? ==> older.Unique() && '@' in key && !older.HasIdentity(Identity(key))
    }
  }

  lemma {:induction false} KeyHasIdentity(t: Peers, k: Addr)
    requires t.Has(k)
    ensures t.HasIdentity(Identity(k))
    ensures t.Unique() ==> '@' in k
  {
    if t.key != k { KeyHasIdentity(t.older, k); }
  }

  lemma {:induction false} SameIdentitySameKey(t: Peers, k1: Addr, k2: Addr)
    requires t.Unique() && t.Has(k1) && t.Has(k2) && Identity(k1) == Identity(k2)
    ensures k1 == k2
  {
    if t.key == k1 {
      if t.key != k2 { KeyHasIdentity(t.older, k2); }
    } else if t.key == k2 {
      KeyHasIdentity(t.older, k1);
    } else {
      SameIdentitySameKey(t.older, k1, k2);
    }
  }

  lemma {:induction false} FirstMatchIsOldest(t: Peers, id: string)
    ensures t.SomeMatch(id) ==> t.Has(t.FirstMatch(id)) && Matches(t.FirstMatch(id), id)
    ensures !t.SomeMatch(id) ==> forall k :: t.Has(k) ==> !Matches(k, id)
  {
    if t.Peers? { FirstMatchIsOldest(t.older, id); }
  }

  /** A lookup by identity is unambiguous: two keys that the same id prefix finds are one. */
  lemma LookupIsUnambiguous(t: Peers, id: string, k1: Addr, k2: Addr)
    requires t.Unique() && PlainId(id) && t.Has(k1) && t.Has(k2) && Matches(k1, id) && Matches(k2, id)
    ensures k1 == k2
  {
    KeyHasIdentity(t, k1);
    KeyHasIdentity(t, k2);
    MatchesIffSameIdentity(k1, id);
    MatchesIffSameIdentity(k2, id);
    SameIdentitySameKey(t, k1, k2);
  }

  lemma {:induction false} PopEffect(t: Peers, k: Addr)
    ensures !t.Pop(k).Has(k)
    ensures forall j :: j != k ==> t.Pop(k).Has(j) == t.Has(j) && (t.Has(j) ==> t.Pop(k).Get(j) == t.Get(j))
    ensures forall s :: t.Pop(k).HasIdentity(s) ==> t.HasIdentity(s)
    ensures t.Unique() ==> t.Pop(k).Unique()
    ensures t.DistinctKeys() ==> t.Pop(k).DistinctKeys()
    ensures t.Unique() && t.Has(k) ==> !t.Pop(k).HasIdentity(Identity(k))
  {
    if t.Peers? {
      PopEffect(t.older, k);
      if t.Unique() && t.older.Has(k) { KeyHasIdentity(t.older, k); }
    }
  }

  lemma {:induction false} PutEffect(t: Peers, k: Addr, c: nat)
    ensures t.Put(k, c).Has(k) && t.Put(k, c).Get(k) == c
    ensures forall j :: j != k ==> t.Put(k, c).Has(j) == t.Has(j) && (t.Has(j) ==> t.Put(k, c).Get(j) == t.Get(j))
    ensures t.DistinctKeys() ==> t.Put(k, c).DistinctKeys()
  {
    if t.Has(k) && t.key != k { PutEffect(t.older, k, c); }
  }

  /** The table lists its keys in the order in which they came. */
  lemma {:induction false} PutKeepsOrder(t: Peers, k: Addr, c: nat)
    ensures t.Put(k, c).Keys() == if t.Has(k) then t.Keys() else t.Keys() + [k]
  {
    if t.Has(k) && t.key != k { PutKeepsOrder(t.older, k, c); }
  }

  lemma {:induction false} UniqueHasDistinctKeys(t: Peers)
    requires t.Unique()
    ensures t.DistinctKeys()
  {
    if t.Peers? {
      UniqueHasDistinctKeys(t.older);
      if t.older.Has(t.key) { KeyHasIdentity(t.older, t.key); }
    }
  }

  lemma {:induction false} NoMatchNoIdentity(t: Peers, id: string)
    requires PlainId(id) && t.Unique() && !t.SomeMatch(id)
    ensures !t.HasIdentity(Short(id))
  {
    if t.Peers? {
      NoMatchNoIdentity(t.older, id);
      MatchesIffSameIdentity(t.key, id);
    }
  }

  /** After the first match is gone no entry of that identity is left. */
  lemma StaleIsGone(t: Peers, id: string)
    requires PlainId(id) && t.Unique()
    ensures t.RemoveStale(id).Unique() && !t.RemoveStale(id).HasIdentity(Short(id))
  {
    FirstMatchIsOldest(t, id);
    if t.SomeMatch(id) {
      var k := t.FirstMatch(id);
      PopEffect(t, k);
      KeyHasIdentity(t, k);
      MatchesIffSameIdentity(k, id);
    } else {
      NoMatchNoIdentity(t, id);
    }
  }

  /** A replacement closes the connection of the entry it removes, and no other. */
  lemma ReplacementCloses(t: Peers, id: string)
    requires PlainId(id) && t.Unique()
    ensures forall k :: t.Has(k) && Matches(k, id) ==> t.StaleConns(id) == {t.Get(k)}
    ensures (forall k :: t.Has(k) ==> !Matches(k, id)) ==> t.StaleConns(id) == {}
  {
    FirstMatchIsOldest(t, id);
    forall k | t.Has(k) && Matches(k, id)
      ensures t.StaleConns(id) == {t.Get(k)}
    {
      LookupIsUnambiguous(t, id, k, t.FirstMatch(id));
    }
  }

  /** Although only the first match is removed, installing a connection keeps one entry per identity,
      makes the new connection the one its id finds, and touches no other identity. */
  lemma InstallReplacesIdentity(t: Peers, id: string, sock: string, c: nat)
    requires PlainId(id) && t.Unique()
    ensures var t' := t.Install(id, sock, c);
            && t'.Unique()
            && t'.Has(Key(id, sock)) && t'.Get(Key(id, sock)) == c
            && (forall k :: t'.Has(k) && Matches(k, id) ==> k == Key(id, sock))
            && (forall k :: t.Has(k) && !Matches(k, id) ==> t'.Has(k) && t'.Get(k) == t.Get(k))
            && (forall k :: t'.Has(k) && k != Key(id, sock) ==> t.Has(k) && t'.Get(k) == t.Get(k))
  {
    var key := Key(id, sock);
    var t' := t.Install(id, sock, c);
    KeyIdentity(id, sock);
    StaleIsGone(t, id);
    FirstMatchIsOldest(t, id);
    if t.SomeMatch(id) { PopEffect(t, t.FirstMatch(id)); }
    if t.RemoveStale(id).Has(key) { KeyHasIdentity(t.RemoveStale(id), key); }
    assert t' == Peers(t.RemoveStale(id), key, c);
    forall k | t'.Has(k) && Matches(k, id)
      ensures k == key
    {
      LookupIsUnambiguous(t', id, k, key);
    }
    forall k | t.Has(k) && !Matches(k, id)
      ensures t'.Has(k) && t'.Get(k) == t.Get(k)
    {
      assert k != key;
    }
  }

  /** The guard that looks up the bare "host:port" before connecting never finds anything. */
  lemma BareAddressNeverListed(t: Peers, canonical: Addr)
    requires t.Unique() && '@' !in canonical
    ensures !t.Has(canonical)
  {
    if t.Has(canonical) { KeyHasIdentity(t, canonical); }
  }

  /** An id that does contain '@' breaks uniqueness: the id "ab" then finds two entries. */
  lemma AtSignInIdIsAmbiguous()
    ensures var t := NoPeers.Install("ab", "1.1.1.1:1", 0).Install("ab@c", "2.2.2.2:2", 1);
            exists k1, k2 :: k1 != k2 && t.Has(k1) && t.Has(k2) && Matches(k1, "ab") && Matches(k2, "ab")
  {
    var k1, k2 := Key("ab", "1.1.1.1:1"), Key("ab@c", "2.2.2.2:2");
    var t1 := NoPeers.Install("ab", "1.1.1.1:1", 0);
    assert t1 == Peers(NoPeers, k1, 0);
    assert k1[3] == '1' && (Short("ab@c") + "@")[3] == 'c';
    assert !Matches(k1, "ab@c");
    var t := t1.Install("ab@c", "2.2.2.2:2", 1);
    assert t == Peers(t1, k2, 1);
    assert Matches(k1, "ab") && Matches(k2, "ab");
  }

  // ---------------------------------------------------------------- the manager

  class TcpManager {
    const nodeId: string
    var peers: Peers
    var closed: set<nat>

    ghost predicate Valid()
      reads this
    {
      peers.DistinctKeys()
    }

    constructor (nodeId: string)
      ensures Valid() && this.nodeId == nodeId && peers == NoPeers && closed == {}
    {
      this.nodeId := nodeId;
      peers := NoPeers;
      closed := {};
    }

    method FindByPrefix(id: string) returns (found: bool, addr: Addr)
      ensures found == peers.SomeMatch(id)
      ensures found ==> addr == peers.FirstMatch(id)
    {
      found, addr := false, "";
      var keys := peers.Keys();
      for i := 0 to |keys|
        invariant forall j :: 0 <= j < i ==> !Matches(keys[j], id)
      {
        if Matches(keys[i], id) {
          FirstMatchAt(peers, id, i);
          return true, keys[i];
        }
      }
      NoMatchInKeys(peers, id);
    }

    method RemoveStalePeer(id: string) returns (found: bool, stale: Addr)
      requires Valid()
      modifies this
      ensures Valid() && peers == old(peers).RemoveStale(id)
      ensures found == old(peers).SomeMatch(id) && (found ==> stale == old(peers).FirstMatch(id))
      ensures closed == old(closed) + old(peers).StaleConns(id)
    {
      found, stale := FindByPrefix(id);
      if found {
        FirstMatchIsOldest(peers, id);
        PopEffect(peers, stale);
        closed := closed + {peers.Get(stale)};
        peers := peers.Pop(stale);
      }
    }

    /** The first message of an incoming connection was a HELLO from remoteId. */
    method AcceptHello(remoteId: string, sock: string, conn: nat) returns (accepted: bool)
      requires Valid()
      modifies this
      ensures Valid() && (accepted <==> Short(remoteId) != Short(nodeId))
      ensures accepted ==> peers == old(peers).Install(remoteId, sock, conn)
                           && closed == old(closed) + old(peers).StaleConns(remoteId)
      ensures !accepted ==> peers == old(peers) && closed == old(closed) + {conn}
    {
      if Short(remoteId) == Short(nodeId) {
        closed := closed + {conn};
        return false;
      }
      var found, stale := RemoveStalePeer(remoteId);
      PutEffect(peers, Key(remoteId, sock), conn);
      peers := peers.Put(Key(remoteId, sock), conn);
      accepted := true;
    }

    /** The end of a connection's read loop: afterwards nothing is listed under its key, not even a connection
        that took the key over; all other entries are as before. */
    method EndReadLoop(addr: Addr, conn: nat)
      requires Valid()
      modifies this
      ensures Valid() && peers == old(peers).Pop(addr) && closed == old(closed) + {conn}
      ensures !peers.Has(addr)
      ensures forall k :: k != addr ==> peers.Has(k) == old(peers).Has(k)
                                        && (peers.Has(k) ==> peers.Get(k) == old(peers).Get(k))
      ensures old(peers).Unique() ==> peers.Unique()
    {
      PopEffect(peers, addr);
      closed := closed + {conn};
      peers := peers.Pop(addr);
    }

    method Broadcast(exclude: set<Addr>, up: set<Addr>) returns (sent: seq<Addr>)
      requires Valid()
      ensures forall i, j :: 0 <= i < j < |sent| ==> sent[i] != sent[j]
      ensures forall k :: k in sent <==> peers.Has(k) && k !in exclude && k in up
    {
      sent := [];
      var keys := peers.Keys();
      KeysAreTheKeys(peers);
      for i := 0 to |keys|
        invariant forall a, b :: 0 <= a < b < |sent| ==> sent[a] != sent[b]
        invariant forall k :: k in sent <==> k in keys[..i] && k !in exclude && k in up
      {
        assert keys[..i + 1] == keys[..i] + [keys[i]];
        if keys[i] !in exclude && keys[i] in up {
          assert keys[i] !in keys[..i];
          sent := sent + [keys[i]];
        }
      }
      assert keys[..|keys|] == keys;
    }
  }

  lemma {:induction false} KeysAreTheKeys(t: Peers)
    requires t.DistinctKeys()
    ensures forall k :: k in t.Keys() <==> t.Has(k)
    ensures forall i, j :: 0 <= i < j < |t.Keys()| ==> t.Keys()[i] != t.Keys()[j]
  {
    if t.Peers? { KeysAreTheKeys(t.older); }
  }

  lemma {:induction false} NoMatchInKeys(t: Peers, id: string)
    requires forall j :: 0 <= j < |t.Keys()| ==> !Matches(t.Keys()[j], id)
    ensures !t.SomeMatch(id)
  {
    if t.Peers? {
      var keys, older := t.Keys(), t.older.Keys();
      assert forall j :: 0 <= j < |older| ==> older[j] == keys[j];
      assert keys[|older|] == t.key;
      NoMatchInKeys(t.older, id);
    }
  }

  lemma {:induction false} FirstMatchAt(t: Peers, id: string, i: nat)
    requires i < |t.Keys()| && Matches(t.Keys()[i], id)
    requires forall j :: 0 <= j < i ==> !Matches(t.Keys()[j], id)
    ensures t.SomeMatch(id) && t.FirstMatch(id) == t.Keys()[i]
  {
    var keys, older := t.Keys(), t.older.Keys();
    assert forall j :: 0 <= j < |older| ==> older[j] == keys[j];
    if i < |older| {
      FirstMatchAt(t.older, id, i);
    } else {
      NoMatchInKeys(t.older, id);
    }
  }
}
