/** The cache of the ten most recently met peers. */
module LastPeers {
  import opened Lists
  import opened Lines

  const CACHE_SIZE := 10

  type Peers = List<string>

  /** The first occurrence of each element, in order. */
  function Dedup(l: Peers): Peers {
    if l.Nil? then Nil else Cons(l.head, Drop(Dedup(l.tail), l.head))
  }

  /** l without x. */
  function Drop(l: Peers, x: string): Peers {
    if l.Nil? then Nil
    else if l.head == x then Drop(l.tail, x)
    else Cons(l.head, Drop(l.tail, x))
  }

  /** One save: the new peers in front, each peer once, at most ten. */
  function Merge(peers: Peers, existing: Peers): Peers {
    Dedup(peers.Append(existing)).Take(CACHE_SIZE)
  }

  /** Saves made so far, the latest one outermost. */
  datatype Saves = Start | Save(before: Saves, peers: Peers)

  function CacheAfter(h: Saves): Peers {
    match h
    case Start => Nil
    case Save(b, peers) => Merge(peers, CacheAfter(b))
  }

  /** Everything ever saved, the most recent save first. */
  function FullHistory(h: Saves): Peers {
    match h
    case Start => Nil
    case Save(b, peers) => peers.Append(FullHistory(b))
  }

  lemma {:induction false} DropCommutes(l: Peers, x: string, y: string)
    ensures Drop(Drop(l, x), y) == Drop(Drop(l, y), x)
  {
    if l.Cons? { DropCommutes(l.tail, x, y); }
  }

  lemma {:induction false} DropTwice(l: Peers, x: string)
    ensures Drop(Drop(l, x), x) == Drop(l, x)
  {
    if l.Cons? { DropTwice(l.tail, x); }
  }

  lemma {:induction false} DedupDrop(l: Peers, x: string)
    ensures Dedup(Drop(l, x)) == Drop(Dedup(l), x)
  {
    if l.Cons? {
      DedupDrop(l.tail, x);
      if l.head == x {
        DropTwice(Dedup(l.tail), x);
      } else {
        DropCommutes(Dedup(l.tail), x, l.head);
      }
    }
  }

  lemma {:induction false} DedupTwice(l: Peers)
    ensures Dedup(Dedup(l)) == Dedup(l)
  {
    if l.Cons? {
      DedupTwice(l.tail);
      DedupDrop(Dedup(l.tail), l.head);
      DropTwice(Dedup(l.tail), l.head);
    }
  }

  lemma {:induction false} DedupAppend(a: Peers, b: Peers)
    ensures Dedup(a.Append(Dedup(b))) == Dedup(a.Append(b))
  {
    if a.Nil? {
      DedupTwice(b);
    } else {
      DedupAppend(a.tail, b);
    }
  }

  ghost predicate Distinct(l: Peers) {
    l.Cons? ==> !l.tail.Has(l.head) && Distinct(l.tail)
  }

  lemma {:induction false} DropHas(l: Peers, x: string, y: string)
    ensures Drop(l, x).Has(y) <==> l.Has(y) && y != x
  {
    if l.Cons? { DropHas(l.tail, x, y); }
  }

  lemma {:induction false} DropDistinct(l: Peers, x: string)
    requires Distinct(l)
    ensures Distinct(Drop(l, x))
    ensures !l.Has(x) ==> Drop(l, x) == l
  {
    if l.Cons? {
      DropDistinct(l.tail, x);
      DropHas(l.tail, x, l.head);
    }
  }

  /** The de-duplicated list has each element once and no other elements. */
  lemma {:induction false} DedupIsDistinct(l: Peers, y: string)
    ensures Distinct(Dedup(l)) && (Dedup(l).Has(y) <==> l.Has(y))
  {
    if l.Cons? {
      DedupIsDistinct(l.tail, y);
      DropDistinct(Dedup(l.tail), l.head);
      DropHas(Dedup(l.tail), l.head, l.head);
      DropHas(Dedup(l.tail), l.head, y);
    }
  }

  /** The place of the first x in l, or the length of l. */
  function Place(l: Peers, x: string): nat {
    if l.Nil? || l.head == x then 0 else 1 + Place(l.tail, x)
  }

  lemma {:induction false} DropKeepsOrder(l: Peers, d: string, x: string, y: string)
    requires x != d && y != d && l.Has(x) && l.Has(y)
    ensures Place(Drop(l, d), x) < Place(Drop(l, d), y) <==> Place(l, x) < Place(l, y)
  {
    DropHas(l, d, x);
    DropHas(l, d, y);
    if l.head != x && l.head != y { DropKeepsOrder(l.tail, d, x, y); }
  }

  /** De-duplication keeps the first occurrences in their order. */
  lemma {:induction false} DedupKeepsOrder(l: Peers, x: string, y: string)
    requires l.Has(x) && l.Has(y)
    ensures Place(Dedup(l), x) < Place(Dedup(l), y) <==> Place(l, x) < Place(l, y)
  {
    if l.head != x && l.head != y {
      DedupKeepsOrder(l.tail, x, y);
      DedupIsDistinct(l.tail, x);
      DedupIsDistinct(l.tail, y);
      DropKeepsOrder(Dedup(l.tail), l.head, x, y);
    }
  }

  /** Taking n keeps the first n places, or all there are. */
  lemma {:induction false} TakeKeepsPlaces(l: Peers, n: nat, x: string)
    ensures l.Take(n).Has(x) <==> l.Has(x) && Place(l, x) < n
    ensures l.Take(n).Length() == if l.Length() < n then l.Length() else n
    ensures l.Take(n).Has(x) ==> Place(l.Take(n), x) == Place(l, x)
  {
    if l.Cons? && n > 0 { TakeKeepsPlaces(l.tail, n - 1, x); }
  }

  /** Dropping one element of a distinct list costs at most one place. */
  lemma {:induction false} TakeOfDrop(l: Peers, x: string, n: nat)
    requires Distinct(l)
    ensures Drop(l, x).Take(n) == Drop(l.Take(n + 1), x).Take(n)
  {
    if l.Cons? {
      if l.head == x {
        DropDistinct(l.tail, x);
        TakeDistinct(l.tail, n, x);
        DropDistinct(l.tail.Take(n), x);
        TakeTwice(l.tail, n, n);
      } else if n > 0 {
        TakeOfDrop(l.tail, x, n - 1);
      }
    }
  }

  lemma {:induction false} TakeDistinct(l: Peers, n: nat, x: string)
    requires Distinct(l)
    ensures Distinct(l.Take(n)) && (l.Take(n).Has(x) ==> l.Has(x))
  {
    if l.Cons? && n > 0 {
      TakeDistinct(l.tail, n - 1, x);
      TakeDistinct(l.tail, n - 1, l.head);
    }
  }

  lemma {:induction false} TakeTwice(l: Peers, m: nat, n: nat)
    requires n <= m
    ensures l.Take(m).Take(n) == l.Take(n)
  {
    if l.Cons? && n > 0 { TakeTwice(l.tail, m - 1, n - 1); }
  }

  /** Cutting a distinct tail to m places does not show in the first n <= m places of a merge. */
  lemma {:induction false} TruncationIsInvisible(a: Peers, b: Peers, m: nat, n: nat)
    requires Distinct(b) && n <= m
    ensures Dedup(a.Append(b.Take(m))).Take(n) == Dedup(a.Append(b)).Take(n)
  {
    if a.Nil? {
      TakeDistinct(b, m, "");
      DedupOfDistinct(b);
      DedupOfDistinct(b.Take(m));
      TakeTwice(b, m, n);
    } else if n > 0 {
      var x := a.head;
      var full, cut := Dedup(a.tail.Append(b)), Dedup(a.tail.Append(b.Take(m)));
      TruncationIsInvisible(a.tail, b, m, n);
      DedupIsDistinct(a.tail.Append(b), x);
      DedupIsDistinct(a.tail.Append(b.Take(m)), x);
      TakeOfDrop(full, x, n - 1);
      TakeOfDrop(cut, x, n - 1);
    }
  }

  lemma {:induction false} DedupOfDistinct(l: Peers)
    requires Distinct(l)
    ensures Dedup(l) == l
  {
    if l.Cons? {
      DedupOfDistinct(l.tail);
      DropDistinct(l.tail, l.head);
    }
  }

  /** After any run of saves the cache is the first ten of the de-duplicated full history:
      cutting the list again and again never loses an entry that belongs there. */
  lemma {:induction false} CacheIsRecentHistory(h: Saves)
    ensures CacheAfter(h) == Dedup(FullHistory(h)).Take(10)
  {
    if h.Save? {
      CacheIsRecentHistory(h.before);
      var full := Dedup(FullHistory(h.before));
      DedupIsDistinct(FullHistory(h.before), "");
      TruncationIsInvisible(h.peers, full, CACHE_SIZE, CACHE_SIZE);
      DedupAppend(h.peers, FullHistory(h.before));
    }
  }

  // ---------------------------------------------------------------- the file

  /** An address as the node saves it: one nonblank line. */
  predicate Clean(p: string) {
    Stripped(p) && NoBreaks(p, InSplitlines)
  }

  ghost predicate AllClean(l: Peers) {
    l.Cons? ==> Clean(l.head) && AllClean(l.tail)
  }

  function Join(l: Peers): string {
    if l.Nil? then "" else if l.tail.Nil? then l.head else l.head + ("\n" + Join(l.tail))
  }

  function Load(text: string): Peers
    decreases |text|
  {
    if text == "" then Nil
    else
      var s := Strip(FirstLine(text, InSplitlines));
      if s == "" then Load(AfterLine(text, InSplitlines)) else Cons(s, Load(AfterLine(text, InSplitlines)))
  }

  lemma {:induction false} JoinThenLoad(l: Peers)
    requires AllClean(l)
    ensures Load(Join(l)) == l
  {
    if l.Cons? {
      JoinThenLoad(l.tail);
      assert Strip(l.head) == l.head;
      if l.tail.Nil? {
        WholeLine(l.head, InSplitlines);
      } else {
        SplitAtLine(l.head, Join(l.tail), InSplitlines);
      }
    }
  }

  lemma {:induction false} LoadedIsClean(text: string)
    ensures AllClean(Load(text))
    decreases |text|
  {
    if text != "" {
      StripEnds(FirstLine(text, InSplitlines), InSplitlines);
      LoadedIsClean(AfterLine(text, InSplitlines));
    }
  }

  /** A list survives the file exactly when every entry is one line without blanks at its ends. */
  lemma JoinLoadsBackIff(l: Peers)
    ensures Load(Join(l)) == l <==> AllClean(l)
  {
    if AllClean(l) { JoinThenLoad(l); }
    LoadedIsClean(Join(l));
  }

  /** An address with a form feed in it comes back as two. */
  lemma FormFeedSplitsAddress()
    ensures Load(Join(Cons("a\U{C}b", Nil))) == Cons("a", Cons("b", Nil))
  {
    var t := "a\U{C}b";
    assert t[1..] == "\U{C}b" && t[1..][1..] == "b" && "b"[1..] == "";
    assert FirstLine(t[1..], InSplitlines) == "" && AfterLine(t[1..], InSplitlines) == "b";
    assert FirstLine(t, InSplitlines) == "a" && AfterLine(t, InSplitlines) == "b";
    assert FirstLine("b", InSplitlines) == "b" && AfterLine("b", InSplitlines) == "";
    assert Load("b") == Cons("b", Nil);
  }

  lemma {:induction false} CleanAppend(a: Peers, b: Peers)
    requires AllClean(a) && AllClean(b)
    ensures AllClean(a.Append(b))
  {
    if a.Cons? { CleanAppend(a.tail, b); }
  }

  lemma {:induction false} CleanDrop(l: Peers, x: string)
    requires AllClean(l)
    ensures AllClean(Drop(l, x))
  {
    if l.Cons? { CleanDrop(l.tail, x); }
  }

  lemma {:induction false} CleanMerge(l: Peers, n: nat)
    requires AllClean(l)
    ensures AllClean(Dedup(l)) && AllClean(Dedup(l).Take(n))
  {
    if l.Cons? {
      CleanMerge(l.tail, n);
      CleanDrop(Dedup(l.tail), l.head);
    }
    CleanTake(Dedup(l), n);
  }

  lemma {:induction false} CleanTake(l: Peers, n: nat)
    requires AllClean(l)
    ensures AllClean(l.Take(n))
  {
    if l.Cons? && n > 0 { CleanTake(l.tail, n - 1); }
  }

  /** Every address saved so far is clean. */
  ghost predicate CleanSaves(h: Saves) {
    h.Save? ==> CleanSaves(h.before) && AllClean(h.peers)
  }

  class Cache {
    var text: string
    ghost var saves: Saves

    /** While clean addresses are saved, the file holds the cache of the specification. */
    ghost predicate Valid()
      reads this
    {
      CleanSaves(saves) ==> Load(text) == CacheAfter(saves)
    }

    constructor ()
      ensures Valid() && saves == Start
    {
      text, saves := "", Start;
    }

    /** Whatever the addresses, the file holds the merged list, joined by line feeds. */
    method SaveLastPeers(peers: Peers)
      requires Valid()
      modifies this
      ensures Valid() && saves == Save(old(saves), peers)
      ensures text == Join(Merge(peers, Load(old(text))))
      ensures AllClean(peers) ==> Load(text) == Merge(peers, Load(old(text)))
    {
      var existing := LoadLastPeers();
      var combined := Merge(peers, existing);
      if AllClean(peers) {
        LoadedIsClean(text);
        CleanAppend(peers, existing);
        CleanMerge(peers.Append(existing), CACHE_SIZE);
        JoinThenLoad(combined);
      }
      text := Join(combined);
      saves := Save(saves, peers);
    }

    method LoadLastPeers() returns (peers: Peers)
      ensures peers == Load(text)
    {
      peers := Nil;
      var rest := text;
      while rest != ""
        invariant peers.Append(Load(rest)) == Load(text)
        decreases |rest|
      {
        var s := Strip(FirstLine(rest, InSplitlines));
        if s != "" {
          AppendAssoc(peers, Cons(s, Nil), Load(AfterLine(rest, InSplitlines)));
          peers := peers.Append(Cons(s, Nil));
        }
        rest := AfterLine(rest, InSplitlines);
      }
      AppendNil(peers);
    }
  }
}
