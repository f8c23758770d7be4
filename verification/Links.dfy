/**
 Hash-linked sequences, the structure behind both the state chain (integrity/chain.py) and
 the audit log (monitoring/audit.py). A record carries the hash of its predecessor and the
 hash of a text that contains that predecessor hash; the first record points at 64 zeros.

 Nothing is assumed about the hash function. Every statement about tampering has the form
 "the two sequences agree, or here is a concrete failure of the hash function".
*/
module Links {

  /** A SHA3-256 digest in hexadecimal (section 6.1 of FIPS 202): always 64 characters. */
  type Digest = s: string | |s| == 64 witness Zeros(64)

  const GENESIS: Digest := Zeros(64)

  function Zeros(n: nat): (s: string)
    ensures |s| == n
    ensures forall i :: 0 <= i < n ==> s[i] == '0'
  {
    seq(n, _ => '0')
  }

  type Hash = string -> Digest

  /** What the hashes see of a record: the text to be hashed and the two stored links. */
  datatype Link = Link(text: string, prev: string, hash: string)

  /** The hash a record at position `i` has to point back to. */
  function HeadAt(bs: seq<Link>, i: nat): string
    requires i <= |bs|
  {
    if i == 0 then GENESIS else bs[i - 1].hash
  }

  function Head(bs: seq<Link>): string {
    HeadAt(bs, |bs|)
  }

  predicate Sealed(h: Hash, b: Link, prev: string) {
    b.prev == prev && b.hash == h(b.text)
  }

  predicate SealedAt(h: Hash, bs: seq<Link>, i: nat)
    requires i < |bs|
  {
    Sealed(h, bs[i], HeadAt(bs, i))
  }

  /** Every record points at its predecessor's hash and stores the hash of its own text. */
  predicate Linked(h: Hash, bs: seq<Link>) {
    forall i :: 0 <= i < |bs| ==> SealedAt(h, bs, i)
  }

  /** What a comparison of two sequences with the same head can come up with. */
  datatype Evidence =
    | Agreement
    | Collision(x: string, y: string)
    | Preimage(text: string)
    | Ambiguous(p: Link, q: Link)

  /** The evidence is what it claims to be. */
  predicate Genuine(h: Hash, a: seq<Link>, b: seq<Link>, e: Evidence) {
    match e
    case Agreement => a == b
    case Collision(x, y) => x != y && h(x) == h(y)
    case Preimage(x) => h(x) == GENESIS
    case Ambiguous(p, q) => p in a && q in b && p.text == q.text && p.prev != q.prev
  }

  /** Walks two sequences backwards from their heads to the first place where they differ. */
  function Compare(a: seq<Link>, b: seq<Link>): Evidence
    decreases |a|
  {
    if a == [] && b == [] then Agreement
    else if a == [] then Preimage(b[|b| - 1].text)
    else if b == [] then Preimage(a[|a| - 1].text)
    else
      var p, q := a[|a| - 1], b[|b| - 1];
      if p.text != q.text then Collision(p.text, q.text)
      else if p.prev != q.prev then Ambiguous(p, q)
      else Compare(a[..|a| - 1], b[..|b| - 1])
  }

  /** Two accepted sequences with the same head are equal, or `Compare` shows what went wrong. */
  lemma {:induction false} CompareIsGenuine(h: Hash, a: seq<Link>, b: seq<Link>)
    requires Linked(h, a) && Linked(h, b) && Head(a) == Head(b)
    ensures Genuine(h, a, b, Compare(a, b))
    decreases |a|
  {
    if a != [] {
      LastLink(h, a);
    }
    if b != [] {
      LastLink(h, b);
    }
    if a != [] && b != [] {
      var p, q := a[|a| - 1], b[|b| - 1];
      if p.text == q.text && p.prev == q.prev {
        CompareIsGenuine(h, a[..|a| - 1], b[..|b| - 1]);
        assert a == a[..|a| - 1] + [p] && b == b[..|b| - 1] + [q];
      }
    }
  }

  lemma LastLink(h: Hash, a: seq<Link>)
    requires Linked(h, a) && a != []
    ensures Linked(h, a[..|a| - 1])
    ensures Sealed(h, a[|a| - 1], Head(a[..|a| - 1]))
  {
    var n := |a| - 1;
    assert SealedAt(h, a, n);
    forall i | 0 <= i < n ensures SealedAt(h, a[..n], i) {
      assert SealedAt(h, a, i);
    }
  }

  lemma LinkedAppend(h: Hash, ls: seq<Link>, l: Link)
    requires Linked(h, ls) && Sealed(h, l, Head(ls))
    ensures Linked(h, ls + [l])
  {
    forall i | 0 <= i < |ls + [l]| ensures SealedAt(h, ls + [l], i) {
      assert i < |ls| ==> SealedAt(h, ls, i);
    }
  }
}
