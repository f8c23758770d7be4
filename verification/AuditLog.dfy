/** The audit log (monitoring/audit.py): several controllers append to one file, each keeping its
    own hash chain. A controller has one lifetime and its writes succeed. */
module AuditLog {
  import opened Links

  /** What is hashed: an entry without its own hash. `data` is its JSON text. */
  datatype Line = Line(ts: real, cid: string, kind: string, data: string, prev: string)

  datatype Entry = Entry(line: Line, hash: string)

  /** JSON text of a line, and SHA3-256; neither is assumed to be injective. */
  datatype Codec = Codec(render: Line -> string, digest: Hash)

  function LinkOf(c: Codec, e: Entry): Link {
    Link(c.render(e.line), e.line.prev, e.hash)
  }

  function NextEntry(c: Codec, prev: string, ts: real, cid: string, kind: string, data: string): Entry {
    var line := Line(ts, cid, kind, data, prev);
    Entry(line, c.digest(c.render(line)))
  }

  /** The chain of one controller, picked out of the shared file. */
  function Chain(c: Codec, file: seq<Entry>, cid: string): seq<Link> {
    if file == [] then []
    else
      var e := file[|file| - 1];
      Chain(c, file[..|file| - 1], cid) + if e.line.cid == cid then [LinkOf(c, e)] else []
  }

  /** The file, and the hash each controller's `_prev` holds. */
  datatype World = World(file: seq<Entry>, prevs: map<string, string>)

  datatype Write = Write(cid: string, ts: real, kind: string, data: string)

  function PrevOf(w: World, cid: string): string {
    if cid in w.prevs then w.prevs[cid] else GENESIS
  }

  function Next(c: Codec, w: World, op: Write): World {
    var e := NextEntry(c, PrevOf(w, op.cid), op.ts, op.cid, op.kind, op.data);
    World(w.file + [e], w.prevs[op.cid := e.hash])
  }

  function Run(c: Codec, ops: seq<Write>): World {
    if ops == [] then World([], map[]) else Next(c, Run(c, ops[..|ops| - 1]), ops[|ops| - 1])
  }

  /** However the writes of the controllers interleave, the entries of each one form a hash chain
      that starts from 64 zeros and ends in the hash that controller holds. */
  lemma {:induction false} EveryControllerHasAChain(c: Codec, ops: seq<Write>, cid: string)
    ensures var w := Run(c, ops);
      && Linked(c.digest, Chain(c, w.file, cid))
      && Head(Chain(c, w.file, cid)) == PrevOf(w, cid)
      && |w.file| == |ops|
  {
    if ops != [] {
      var w, op := Run(c, ops[..|ops| - 1]), ops[|ops| - 1];
      EveryControllerHasAChain(c, ops[..|ops| - 1], cid);
      var e := NextEntry(c, PrevOf(w, op.cid), op.ts, op.cid, op.kind, op.data);
      assert (w.file + [e])[..|w.file|] == w.file;
      if op.cid == cid {
        LinkedAppend(c.digest, Chain(c, w.file, cid), LinkOf(c, e));
      } else {
        assert Chain(c, w.file, cid) + [] == Chain(c, w.file, cid);
      }
    }
  }

  /** The file records the writes: one entry each, in order, showing who wrote what and when, and
      never changed by later writes. */
  lemma {:induction false} EntriesAreTheWrites(c: Codec, ops: seq<Write>, i: nat)
    requires i < |ops|
    ensures var file := Run(c, ops).file;
      && |file| == |ops|
      && file[i].line.cid == ops[i].cid && file[i].line.ts == ops[i].ts
      && file[i].line.kind == ops[i].kind && file[i].line.data == ops[i].data
  {
    var n := |ops| - 1;
    EveryControllerHasAChain(c, ops[..n], "");
    if i < n {
      EntriesAreTheWrites(c, ops[..n], i);
    }
  }

  /** Every link of a controller's chain is that of one of its entries in the file. */
  lemma {:induction false} LinkHasEntry(c: Codec, file: seq<Entry>, cid: string, l: Link) returns (i: nat)
    requires l in Chain(c, file, cid)
    ensures i < |file| && file[i].line.cid == cid && LinkOf(c, file[i]) == l
  {
    var n := |file| - 1;
    if file[n].line.cid == cid && LinkOf(c, file[n]) == l {
      i := n;
    } else {
      i := LinkHasEntry(c, file[..n], cid, l);
    }
  }

  /** The text of an entry shows its `prev` field, as JSON text does. */
  ghost predicate ShowsPrev(c: Codec) {
    forall x: Line, y: Line :: c.render(x) == c.render(y) ==> x.prev == y.prev
  }

  /** Two files in which a controller's entries form chains ending in the same hash show the same
      entries of that controller, or exhibit a collision or a preimage of 64 zeros. */
  lemma AuditTamperEvidence(c: Codec, a: seq<Entry>, b: seq<Entry>, cid: string)
    requires ShowsPrev(c)
    requires Linked(c.digest, Chain(c, a, cid)) && Linked(c.digest, Chain(c, b, cid))
    requires Head(Chain(c, a, cid)) == Head(Chain(c, b, cid))
    ensures match Compare(Chain(c, a, cid), Chain(c, b, cid))
      case Agreement => Chain(c, a, cid) == Chain(c, b, cid)
      case Collision(x, y) => x != y && c.digest(x) == c.digest(y)
      case Preimage(x) => c.digest(x) == GENESIS
      case Ambiguous(_, _) => false
  {
    hide Chain, Linked;
    CompareIsGenuine(c.digest, Chain(c, a, cid), Chain(c, b, cid));
    match Compare(Chain(c, a, cid), Chain(c, b, cid))
    case Ambiguous(p, q) =>
      var i := LinkHasEntry(c, a, cid, p);
      var j := LinkHasEntry(c, b, cid, q);
    case _ =>
  }

  /** The entries of other controllers can come, go and move without touching this one's chain. */
  lemma {:induction false} OthersDoNotMatter(c: Codec, a: seq<Entry>, b: seq<Entry>, cid: string)
    requires forall i :: 0 <= i < |b| ==> b[i].line.cid != cid
    ensures Chain(c, a + b, cid) == Chain(c, a, cid) && Chain(c, b + a, cid) == Chain(c, a, cid)
    decreases |a| + |b|
  {
    if b != [] {
      var n := |b| - 1;
      OthersDoNotMatter(c, a, b[..n], cid);
      assert (a + b)[..|a + b| - 1] == a + b[..n];
    } else {
      assert a + b == a;
    }
    OthersBefore(c, b, a, cid);
  }

  lemma {:induction false} OthersBefore(c: Codec, b: seq<Entry>, a: seq<Entry>, cid: string)
    requires forall i :: 0 <= i < |b| ==> b[i].line.cid != cid
    ensures Chain(c, b + a, cid) == Chain(c, a, cid)
    decreases |a| + |b|
  {
    var all := b + a;
    if a != [] {
      assert all[..|all| - 1] == b + a[..|a| - 1];
      OthersBefore(c, b, a[..|a| - 1], cid);
    } else if b != [] {
      assert all[..|all| - 1] == b[..|b| - 1] + a;
      OthersBefore(c, b[..|b| - 1], a, cid);
    }
  }

  /** The shared file. */
  class AuditFile {
    var entries: seq<Entry>

    constructor ()
      ensures entries == []
    {
      entries := [];
    }
  }

  class Audit {
    const codec: Codec
    const cid: string
    const file: AuditFile
    var prev: string

    constructor (codec: Codec, cid: string, file: AuditFile, now: real)
      modifies file
      ensures this.codec == codec && this.cid == cid && this.file == file
      ensures var e := NextEntry(codec, GENESIS, now, cid, "AUDIT_START", cid);
        file.entries == old(file.entries) + [e] && prev == e.hash
    {
      this.codec, this.cid, this.file := codec, cid, file;
      prev := GENESIS;
      new;
      WriteEntry(now, "AUDIT_START", cid);
    }

    method WriteEntry(now: real, kind: string, data: string)
      modifies this, file
      ensures var e := NextEntry(codec, old(prev), now, cid, kind, data);
        file.entries == old(file.entries) + [e] && prev == e.hash
    {
      var line := Line(now, cid, kind, data, prev);
      var h := codec.digest(codec.render(line));
      prev := h;
      file.entries := file.entries + [Entry(line, h)];
    }
  }
}
