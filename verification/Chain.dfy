/** The bounded hash chain of one controller (integrity/chain.py). */
module Chain {
  import opened Links

  const MAX_BLOCKS: nat := 1000

  /** Canonical JSON text and SHA3-256 digest; neither is assumed to be injective. */
  datatype Crypto<!S> = Crypto(canon: S -> string, digest: string -> Digest)

  datatype Block<+S> = Block(idx: nat, cid: string, state: S, prev: string, hash: string, ts: real)

  function LinkOf<S>(k: Crypto<S>, b: Block<S>): Link {
    Link(k.canon(b.state) + b.prev, b.prev, b.hash)
  }

  function LinksOf<S>(k: Crypto<S>, bs: seq<Block<S>>): (ls: seq<Link>)
    ensures |ls| == |bs|
    ensures forall i :: 0 <= i < |bs| ==> ls[i] == LinkOf(k, bs[i])
  {
    seq(|bs|, i requires 0 <= i < |bs| => LinkOf(k, bs[i]))
  }

  /** The hash that block `i` has to point back to. */
  function PrevAt<S>(bs: seq<Block<S>>, i: nat): string
    requires i <= |bs|
  {
    if i == 0 then GENESIS else bs[i - 1].hash
  }

  predicate Good<S>(k: Crypto<S>, bs: seq<Block<S>>, i: nat)
    requires i < |bs|
  {
    Sealed(k.digest, LinkOf(k, bs[i]), PrevAt(bs, i))
  }

  /** What `verify_all` decides: from GENESIS on, every block points at its predecessor's hash
      and stores the hash of its own state and link. */
  predicate Accepted<S>(k: Crypto<S>, bs: seq<Block<S>>) {
    forall i :: 0 <= i < |bs| ==> Good(k, bs, i)
  }

  lemma AcceptedIsLinked<S>(k: Crypto<S>, bs: seq<Block<S>>)
    ensures Accepted(k, bs) <==> Linked(k.digest, LinksOf(k, bs))
    ensures Head(LinksOf(k, bs)) == PrevAt(bs, |bs|)
  {
    var ls := LinksOf(k, bs);
    forall i | 0 <= i < |bs|
      ensures Good(k, bs, i) <==> SealedAt(k.digest, ls, i)
    {
    }
  }

  /** The value of a chain object. `history` is every block ever added; the program keeps
      only `blocks`. */
  datatype Ledger<+S> = Ledger(head: string, height: nat, blocks: seq<Block<S>>, history: seq<Block<S>>)

  function EmptyLedger<S>(): Ledger<S> {
    Ledger(GENESIS, 0, [], [])
  }

  function NextBlock<S>(k: Crypto<S>, cid: string, l: Ledger<S>, state: S, now: real): Block<S> {
    Block(l.height, cid, state, l.head, k.digest(k.canon(state) + l.head), now)
  }

  function Evict<T>(bs: seq<T>): seq<T> {
    if |bs| > MAX_BLOCKS then bs[1..] else bs
  }

  function Extend<S>(k: Crypto<S>, cid: string, l: Ledger<S>, state: S, now: real): Ledger<S> {
    var b := NextBlock(k, cid, l, state, now);
    Ledger(b.hash, l.height + 1, Evict(l.blocks + [b]), l.history + [b])
  }

  function Window<T>(h: seq<T>): (w: seq<T>)
    ensures |w| == if |h| <= 1000 then |h| else 1000
    ensures w == h[|h| - |w|..]
  {
    if |h| <= MAX_BLOCKS then h else h[|h| - MAX_BLOCKS..]
  }

  /** An untampered chain: `blocks` is the window of a properly linked and numbered history. */
  predicate Intact<S(==)>(k: Crypto<S>, cid: string, l: Ledger<S>) {
    && Accepted(k, l.history)
    && l.height == |l.history|
    && l.head == PrevAt(l.history, |l.history|)
    && l.blocks == Window(l.history)
    && (forall i :: 0 <= i < |l.history| ==> l.history[i].idx == i && l.history[i].cid == cid)
  }

  lemma WindowSlides<T>(h: seq<T>, b: T)
    ensures Window(h + [b]) == Evict(Window(h) + [b])
  {
  }

  lemma AcceptedAppend<S>(k: Crypto<S>, h: seq<Block<S>>, b: Block<S>)
    requires Accepted(k, h) && Sealed(k.digest, LinkOf(k, b), PrevAt(h, |h|))
    ensures Accepted(k, h + [b])
  {
    forall i | 0 <= i < |h + [b]| ensures Good(k, h + [b], i) {
      assert i < |h| ==> Good(k, h, i);
    }
  }

  lemma ExtendIntact<S>(k: Crypto<S>, cid: string, l: Ledger<S>, state: S, now: real)
    requires Intact(k, cid, l)
    ensures Intact(k, cid, Extend(k, cid, l, state, now))
  {
    hide Good, Window, Evict;
    var b := NextBlock(k, cid, l, state, now);
    AcceptedAppend(k, l.history, b);
    WindowSlides(l.history, b);
  }

  function AddAll<S>(k: Crypto<S>, cid: string, entries: seq<(S, real)>): Ledger<S> {
    if entries == [] then EmptyLedger()
    else
      var n := |entries| - 1;
      Extend(k, cid, AddAll(k, cid, entries[..n]), entries[n].0, entries[n].1)
  }

  /** The history holds the given states and times in order. */
  predicate Holds<S(==)>(h: seq<Block<S>>, entries: seq<(S, real)>) {
    && |h| == |entries|
    && forall i :: 0 <= i < |h| ==> (h[i].state, h[i].ts) == entries[i]
  }

  lemma {:induction false} AddAllIntact<S>(k: Crypto<S>, cid: string, entries: seq<(S, real)>)
    ensures Intact(k, cid, AddAll(k, cid, entries))
    ensures Holds(AddAll(k, cid, entries).history, entries)
  {
    hide Intact, Holds, Extend;
    if entries == [] {
      EmptyIntact(k, cid);
    } else {
      var n := |entries| - 1;
      AddAllIntact(k, cid, entries[..n]);
      var l := AddAll(k, cid, entries[..n]);
      ExtendIntact(k, cid, l, entries[n].0, entries[n].1);
      ExtendHolds(k, cid, l, entries[..n], entries[n].0, entries[n].1);
      assert entries[..n] + [(entries[n].0, entries[n].1)] == entries;
    }
  }

  lemma EmptyIntact<S>(k: Crypto<S>, cid: string)
    ensures Intact(k, cid, EmptyLedger<S>()) && Holds(EmptyLedger<S>().history, [])
  {
  }

  lemma ExtendHolds<S>(k: Crypto<S>, cid: string, l: Ledger<S>, entries: seq<(S, real)>, state: S, ts: real)
    requires Holds(l.history, entries)
    ensures Holds(Extend(k, cid, l, state, ts).history, entries + [(state, ts)])
  {
    hide Accepted, Good;
    var more := entries + [(state, ts)];
    var history := Extend(k, cid, l, state, ts).history;
    forall i | 0 <= i < |history| ensures (history[i].state, history[i].ts) == more[i] {
      if i < |entries| {
        assert (l.history[i].state, l.history[i].ts) == entries[i];
      }
    }
  }

  predicate Adjacent<S>(bs: seq<Block<S>>, i: nat)
    requires 0 < i < |bs|
  {
    bs[i].prev == bs[i - 1].hash && bs[i].idx == bs[i - 1].idx + 1
  }

  /** The block is number n and holds the n-th state and time. */
  predicate Stores<S(==)>(b: Block<S>, entries: seq<(S, real)>, n: nat) {
    n < |entries| && b.idx == n && (b.state, b.ts) == entries[n]
  }

  /** After any sequence of additions `blocks` holds exactly the last min(height, 1000) of all
      the blocks, consecutively numbered and linked, each with the state added at that position,
      and `head` is the hash of the last one. */
  lemma WindowRefinesHistory<S>(k: Crypto<S>, cid: string, entries: seq<(S, real)>)
    ensures var l := AddAll(k, cid, entries);
      && l.height == |entries|
      && |l.blocks| == (if |entries| <= 1000 then |entries| else 1000)
      && l.head == PrevAt(l.blocks, |l.blocks|)
      && (forall i :: 0 < i < |l.blocks| ==> Adjacent(l.blocks, i))
      && (forall i :: 0 <= i < |l.blocks| ==> Stores(l.blocks[i], entries, |entries| - |l.blocks| + i))
  {
    hide AddAll, Accepted, Good, Adjacent, Stores;
    AddAllIntact(k, cid, entries);
    WindowAdjacent(k, cid, AddAll(k, cid, entries));
    WindowStores(k, cid, AddAll(k, cid, entries), entries);
  }

  lemma WindowStores<S>(k: Crypto<S>, cid: string, l: Ledger<S>, entries: seq<(S, real)>)
    requires Intact(k, cid, l) && Holds(l.history, entries)
    ensures forall i :: 0 <= i < |l.blocks| ==> Stores(l.blocks[i], entries, |entries| - |l.blocks| + i)
  {
    hide Accepted, Good, PrevAt, Stores;
    forall i | 0 <= i < |l.blocks| ensures Stores(l.blocks[i], entries, |entries| - |l.blocks| + i) {
      BlockStores(k, cid, l, entries, i);
    }
  }

  lemma BlockStores<S>(k: Crypto<S>, cid: string, l: Ledger<S>, entries: seq<(S, real)>, i: nat)
    requires Intact(k, cid, l) && Holds(l.history, entries) && i < |l.blocks|
    ensures Stores(l.blocks[i], entries, |entries| - |l.blocks| + i)
  {
    hide Accepted, Good, PrevAt;
    var n := |entries| - |l.blocks| + i;
    assert l.blocks[i] == l.history[n];
    assert (l.history[n].state, l.history[n].ts) == entries[n];
  }

  lemma WindowAdjacent<S>(k: Crypto<S>, cid: string, l: Ledger<S>)
    requires Intact(k, cid, l)
    ensures l.head == PrevAt(l.blocks, |l.blocks|)
    ensures forall i :: 0 < i < |l.blocks| ==> Adjacent(l.blocks, i)
  {
    var d := |l.history| - |l.blocks|;
    forall i | 0 < i < |l.blocks| ensures Adjacent(l.blocks, i) {
      assert Good(k, l.history, d + i);
    }
  }

  /** `verify_all` restarts from GENESIS although old blocks are gone. So an untampered chain
      passes exactly while nothing was evicted, or when the last evicted hash is GENESIS. */
  lemma UntamperedAcceptedIff<S>(k: Crypto<S>, cid: string, l: Ledger<S>)
    requires Intact(k, cid, l)
    ensures Accepted(k, l.blocks) <==>
            l.height <= 1000 || l.history[l.height - 1001].hash == GENESIS
  {
    if l.height > MAX_BLOCKS {
      var d := l.height - MAX_BLOCKS;
      forall i | 0 < i < MAX_BLOCKS ensures Good(k, l.blocks, i) {
        assert Good(k, l.history, d + i);
      }
      assert Good(k, l.history, d);
      assert Good(k, l.blocks, 0) <==> l.history[d - 1].hash == GENESIS;
    }
  }

  /** No block of the chain has hashed to 64 zeros. */
  predicate NeverGenesis<S>(history: seq<Block<S>>) {
    forall i :: 0 <= i < |history| ==> history[i].hash != GENESIS
  }

  /** The promise that an untampered chain verifies fails for every chain of more than 1000
      blocks, unless one of them has hashed to 64 zeros. */
  lemma LongUntamperedChainRejected<S>(k: Crypto<S>, cid: string, entries: seq<(S, real)>)
    requires |entries| > 1000 && NeverGenesis(AddAll(k, cid, entries).history)
    ensures !Accepted(k, AddAll(k, cid, entries).blocks)
  {
    hide AddAll, Accepted;
    AddAllIntact(k, cid, entries);
    UntamperedAcceptedIff(k, cid, AddAll(k, cid, entries));
  }

  function Entries<S>(bs: seq<Block<S>>): (es: seq<(S, real)>)
    ensures |es| == |bs|
  {
    seq(|bs|, i requires 0 <= i < |bs| => (bs[i].state, bs[i].ts))
  }

  predicate SameLink<S>(a: Block<S>, b: Block<S>) {
    a.prev == b.prev && a.hash == b.hash
  }

  /** A block list is accepted exactly when its links are the ones that adding the same states
      from GENESIS, with no eviction, produces. */
  lemma AcceptedIffRebuilt<S>(k: Crypto<S>, cid: string, bs: seq<Block<S>>)
    ensures var built := AddAll(k, cid, Entries(bs)).history;
      && |built| == |bs|
      && (Accepted(k, bs) <==> forall i :: 0 <= i < |bs| ==> SameLink(bs[i], built[i]))
  {
    var built := AddAll(k, cid, Entries(bs)).history;
    AddAllIntact(k, cid, Entries(bs));
    if forall i :: 0 <= i < |bs| ==> SameLink(bs[i], built[i]) {
      forall i | 0 <= i < |bs| ensures Good(k, bs, i) {
        assert Good(k, built, i);
        assert SameLink(bs[i], built[i]) && (i > 0 ==> SameLink(bs[i - 1], built[i - 1]));
      }
    }
    if Accepted(k, bs) {
      LinksDetermined(k, bs, built, |bs|);
    }
  }

  lemma {:induction false} LinksDetermined<S>(k: Crypto<S>, a: seq<Block<S>>, b: seq<Block<S>>, n: nat)
    requires Accepted(k, a) && Accepted(k, b) && n <= |a| && n <= |b|
    requires forall i :: 0 <= i < n ==> a[i].state == b[i].state
    ensures forall i :: 0 <= i < n ==> SameLink(a[i], b[i])
  {
    if n > 0 {
      LinksDetermined(k, a, b, n - 1);
      assert Good(k, a, n - 1) && Good(k, b, n - 1);
    }
  }

  /** Agreement on everything the hashes cover. */
  predicate SameStory<S>(k: Crypto<S>, a: seq<Block<S>>, b: seq<Block<S>>) {
    && |a| == |b|
    && forall i :: 0 <= i < |a| ==>
         k.canon(a[i].state) == k.canon(b[i].state) && a[i].prev == b[i].prev && a[i].hash == b[i].hash
  }

  /** Two accepted block lists, of any lengths, that end in the same hash agree on every
      canonical state and link, or `Compare` hands over a collision or a preimage of GENESIS. */
  lemma TamperEvidence<S>(k: Crypto<S>, a: seq<Block<S>>, b: seq<Block<S>>) returns (e: Evidence)
    requires Accepted(k, a) && Accepted(k, b) && PrevAt(a, |a|) == PrevAt(b, |b|)
    ensures match e
      case Agreement => SameStory(k, a, b)
      case Collision(x, y) => x != y && k.digest(x) == k.digest(y)
      case Preimage(x) => k.digest(x) == GENESIS
      case Ambiguous(_, _) => false
  {
    AcceptedIsLinked(k, a);
    AcceptedIsLinked(k, b);
    CompareIsGenuine(k.digest, LinksOf(k, a), LinksOf(k, b));
    e := Compare(LinksOf(k, a), LinksOf(k, b));
    match e
    case Agreement =>
      forall i | 0 <= i < |a|
        ensures k.canon(a[i].state) == k.canon(b[i].state) && a[i].prev == b[i].prev && a[i].hash == b[i].hash
      {
        assert LinkOf(k, a[i]) == LinksOf(k, a)[i] == LinksOf(k, b)[i] == LinkOf(k, b[i]);
        SuffixCancels(k.canon(a[i].state), a[i].prev, k.canon(b[i].state), b[i].prev);
      }
    case Collision(x, y) =>
    case Preimage(x) =>
    case Ambiguous(p, q) =>
      var i :| 0 <= i < |a| && LinksOf(k, a)[i] == p;
      var j :| 0 <= j < |b| && LinksOf(k, b)[j] == q;
      PrevIsDigest(k, a, i);
      PrevIsDigest(k, b, j);
      SuffixCancels(k.canon(a[i].state), a[i].prev, k.canon(b[j].state), b[j].prev);
  }

  lemma SuffixCancels(x: string, p: string, y: string, q: string)
    requires x + p == y + q && |p| == |q|
    ensures x == y && p == q
  {
    assert x == (x + p)[..|x|] && y == (y + q)[..|y|];
    assert p == (x + p)[|x|..] && q == (y + q)[|y|..];
  }

  lemma PrevIsDigest<S>(k: Crypto<S>, bs: seq<Block<S>>, i: nat)
    requires Accepted(k, bs) && i < |bs|
    ensures |bs[i].prev| == 64
  {
    assert Good(k, bs, i) && (i > 0 ==> Good(k, bs, i - 1));
  }

  /** Rewriting the state of one block and nothing else is noticed, or yields a collision. */
  lemma EditedStateRejected<S>(k: Crypto<S>, bs: seq<Block<S>>, i: nat, state: S)
    requires Accepted(k, bs) && i < |bs|
    requires k.canon(state) != k.canon(bs[i].state)
    ensures
      || !Accepted(k, bs[i := bs[i].(state := state)])
      || (var x, y := k.canon(bs[i].state) + bs[i].prev, k.canon(state) + bs[i].prev;
          x != y && k.digest(x) == k.digest(y))
  {
    var edited := bs[i := bs[i].(state := state)];
    if Accepted(k, edited) {
      assert Good(k, bs, i) && Good(k, edited, i);
      var x, y := k.canon(bs[i].state) + bs[i].prev, k.canon(state) + bs[i].prev;
      if x == y {
        SuffixCancels(k.canon(bs[i].state), bs[i].prev, k.canon(state), bs[i].prev);
      }
    }
  }

  class HashChain<S(==)> {
    const k: Crypto<S>
    const cid: string
    var head: string
    var height: nat
    var blocks: seq<Block<S>>
    ghost var history: seq<Block<S>>

    ghost function View(): Ledger<S>
      reads this
    {
      Ledger(head, height, blocks, history)
    }

    constructor (k: Crypto<S>, cid: string)
      ensures this.k == k && this.cid == cid
      ensures View() == EmptyLedger()
    {
      this.k, this.cid := k, cid;
      head, height, blocks, history := GENESIS, 0, [], [];
    }

    /** Links a new block to the head and drops the oldest one beyond the window. Holds of a
        tampered object too. */
    method Add(state: S, now: real) returns (block: Block<S>)
      modifies this
      ensures block == NextBlock(k, cid, old(View()), state, now)
      ensures View() == Extend(k, cid, old(View()), state, now)
      ensures old(Intact(k, cid, View())) ==> Intact(k, cid, View())
    {
      var newHash := k.digest(k.canon(state) + head);
      block := Block(height, cid, state, head, newHash, now);
      if Intact(k, cid, View()) {
        ExtendIntact(k, cid, View(), state, now);
      }
      head := newHash;
      height := height + 1;
      blocks := blocks + [block];
      if |blocks| > MAX_BLOCKS {
        blocks := blocks[1..];
      }
      history := history + [block];
    }

    /** Recomputes every hash with a running predecessor. */
    method VerifyAll() returns (ok: bool)
      ensures ok <==> Accepted(k, blocks)
    {
      var prev: string := GENESIS;
      var i := 0;
      while i < |blocks|
        invariant 0 <= i <= |blocks|
        invariant prev == PrevAt(blocks, i)
        invariant forall j :: 0 <= j < i ==> Good(k, blocks, j)
      {
        var b := blocks[i];
        if b.prev != prev {
          assert !Good(k, blocks, i);
          return false;
        }
        if k.digest(k.canon(b.state) + prev) != b.hash {
          assert !Good(k, blocks, i);
          return false;
        }
        prev := b.hash;
        i := i + 1;
      }
      return true;
    }
  }
}
