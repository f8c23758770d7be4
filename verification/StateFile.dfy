/** The shared state file (integrity/agent.py, `_flush`): every controller reads the whole file,
    adds its own record and atomically replaces the file. Between the read and the replace other
    controllers may run. A controller has at most one flush in flight. */
module StateFile {
  import opened Agent

  datatype Flight = Idle | Holding(snapshot: map<string, Record>, record: Record, readAt: nat)

  /** `published[c]` is what controller c's flushes have produced so far, `newest[c]` the index of
      its last record that reached the file, and `replacedAt[c]` when that was. */
  datatype World = World(file: map<string, Record>, flights: map<string, Flight>, clock: nat,
                         published: map<string, seq<Record>>, newest: map<string, nat>, replacedAt: map<string, nat>)

  datatype Step = Read(c: string, record: Record) | Replace(c: string)

  function Start(cs: set<string>): World {
    World(map[], map c | c in cs :: Idle, 0, map c | c in cs :: [], map[], map[])
  }

  /** The next record of c carries the next block number. */
  predicate Enabled(w: World, s: Step) {
    && s.c in w.flights && s.c in w.published
    && match s
       case Read(c, record) => w.flights[c].Idle? && record.idx == |w.published[c]|
       case Replace(c) => w.flights[c].Holding?
  }

  function Next(w: World, s: Step): World
    requires Enabled(w, s)
  {
    match s
    case Read(c, record) =>
      w.(flights := w.flights[c := Holding(w.file, record, w.clock)], clock := w.clock + 1,
         published := w.published[c := w.published[c] + [record]])
    case Replace(c) =>
      var f := w.flights[c];
      w.(file := f.snapshot[c := f.record], flights := w.flights[c := Idle], clock := w.clock + 1,
         newest := w.newest[c := f.record.idx], replacedAt := w.replacedAt[c := w.clock])
  }

  // ---------------------------------------------------------------- what every step keeps

  /** The record is one that c published, and not newer than the last that reached the file. */
  predicate Genuine(w: World, c: string, r: Record) {
    && c in w.published && r.idx < |w.published[c]| && w.published[c][r.idx] == r
    && c in w.newest && r.idx <= w.newest[c]
  }

  predicate GenuineFile(w: World, file: map<string, Record>) {
    forall c :: c in file ==> Genuine(w, c, file[c])
  }

  /** What is in flight was read in the past, contains only genuine records, and only older ones of
      a controller that has replaced the file since; and the record to be added is newer than
      anything of its controller that reached the file. */
  predicate FlightOk(w: World, c: string)
    requires c in w.flights
  {
    var f := w.flights[c];
    f.Holding? ==>
      && f.readAt < w.clock
      && GenuineFile(w, f.snapshot)
      && (forall d :: d in f.snapshot && d in w.replacedAt && f.readAt <= w.replacedAt[d] ==>
            f.snapshot[d].idx < w.newest[d])
      && c in w.published && |w.published[c]| == f.record.idx + 1 && w.published[c][f.record.idx] == f.record
      && (c in w.newest ==> w.newest[c] < f.record.idx)
  }

  predicate Sound(w: World) {
    && w.newest.Keys == w.replacedAt.Keys
    && (forall c :: c in w.newest ==> c in w.published && w.newest[c] < |w.published[c]| && w.replacedAt[c] < w.clock)
    && GenuineFile(w, w.file)
    && (forall c :: c in w.flights ==> FlightOk(w, c))
  }

  lemma StartSound(cs: set<string>)
    ensures Sound(Start(cs))
  {
  }

  lemma ReadSound(w: World, c: string, record: Record)
    requires Sound(w) && Enabled(w, Read(c, record))
    ensures Sound(Next(w, Read(c, record)))
  {
    var w' := Next(w, Read(c, record));
    forall d, r | Genuine(w, d, r) ensures Genuine(w', d, r) {
    }
    forall d | d in w'.flights ensures FlightOk(w', d) {
      assert d != c ==> FlightOk(w, d);
    }
  }

  lemma ReplaceSound(w: World, c: string)
    requires Sound(w) && Enabled(w, Replace(c))
    ensures Sound(Next(w, Replace(c)))
  {
    var w' := Next(w, Replace(c));
    assert FlightOk(w, c);
    forall d, r | Genuine(w, d, r) ensures Genuine(w', d, r) {
    }
    forall d | d in w'.flights ensures FlightOk(w', d) {
      assert FlightOk(w, d);
    }
  }

  // ---------------------------------------------------------------- provenance and lost updates

  /** The entry of c in the file is c's newest record that ever reached it. */
  predicate Fresh(w: World, c: string) {
    c in w.newest && c in w.file && w.file[c].idx == w.newest[c]
  }

  /** And every flush in flight that has read the file since c's last replace has seen that record. */
  predicate Unbroken(w: World, c: string) {
    && Fresh(w, c) && c in w.replacedAt
    && forall d :: d in w.flights && w.flights[d].Holding? && w.replacedAt[c] < w.flights[d].readAt ==>
         c in w.flights[d].snapshot && w.flights[d].snapshot[c].idx == w.newest[c]
  }

  /** d read the file before c's last replace and has not replaced it since. */
  predicate Straddles(w: World, d: string, c: string) {
    && d != c && d in w.flights && w.flights[d].Holding?
    && c in w.replacedAt && w.flights[d].readAt <= w.replacedAt[c]
  }

  /** Right after its own replace, a controller's entry is the last record it published. */
  lemma OwnReplaceFresh(w: World, c: string)
    requires Sound(w) && Enabled(w, Replace(c))
    ensures var w' := Next(w, Replace(c));
      && Unbroken(w', c)
      && w'.published[c] != [] && w'.file[c] == w'.published[c][|w'.published[c]| - 1]
  {
    assert FlightOk(w, c);
    var w' := Next(w, Replace(c));
    forall d | d in w'.flights && w'.flights[d].Holding? ensures w'.flights[d].readAt < w'.replacedAt[c] {
      assert FlightOk(w, d);
    }
  }

  /** Another controller's replace keeps the entry fresh exactly when it did not straddle the last
      replace of c; a straddling one puts an older record back, or drops the entry. */
  lemma OtherReplaceKeepsIff(w: World, d: string, c: string)
    requires Sound(w) && Enabled(w, Replace(d)) && d != c && Unbroken(w, c)
    ensures var w' := Next(w, Replace(d));
      && (Fresh(w', c) <==> !Straddles(w, d, c))
      && (Unbroken(w', c) <==> !Straddles(w, d, c))
      && w'.newest[c] == w.newest[c]
  {
    assert FlightOk(w, d);
    var w', f := Next(w, Replace(d)), w.flights[d];
  }

  lemma ReadKeepsUnbroken(w: World, d: string, record: Record, c: string)
    requires Sound(w) && Enabled(w, Read(d, record)) && Unbroken(w, c)
    ensures Unbroken(Next(w, Read(d, record)), c)
  {
  }

  // ---------------------------------------------------------------- whole runs

  ghost predicate IsRun(cs: set<string>, ws: seq<World>, steps: seq<Step>) {
    && |ws| == |steps| + 1 && ws[0] == Start(cs)
    && forall i :: 0 <= i < |steps| ==> StepOk(ws[i], steps[i], ws[i + 1])
  }

  predicate StepOk(w: World, s: Step, w': World) {
    Enabled(w, s) && w' == Next(w, s)
  }

  /** In every interleaving of reads and replaces, each entry of the file is a record that its
      controller really published. */
  lemma {:induction false} EntriesGenuine(cs: set<string>, ws: seq<World>, steps: seq<Step>, i: nat)
    requires IsRun(cs, ws, steps) && i < |ws|
    ensures Sound(ws[i]) && GenuineFile(ws[i], ws[i].file)
  {
    hide Next, Enabled, Start, FlightOk;
    if i == 0 {
      StartSound(cs);
    } else {
      EntriesGenuine(cs, ws, steps, i - 1);
      assert StepOk(ws[i - 1], steps[i - 1], ws[i]);
      match steps[i - 1]
      case Read(c, record) => ReadSound(ws[i - 1], c, record);
      case Replace(c) => ReplaceSound(ws[i - 1], c);
    }
  }

  /** No other controller's replace between step i and step j straddles c's last replace. */
  predicate NoStraddle(ws: seq<World>, steps: seq<Step>, c: string, i: nat, j: nat)
    requires i <= j <= |steps| && |ws| == |steps| + 1
  {
    forall m :: i <= m < j ==> steps[m].Replace? && steps[m].c != c ==> !Straddles(ws[m], steps[m].c, c)
  }

  /** Once a controller has replaced the file at step i, its entry is its newest record that reached
      the file at every later time, as long as no straddling replace by another controller happens. */
  lemma {:induction false} EntryStaysFresh(cs: set<string>, ws: seq<World>, steps: seq<Step>, c: string, i: nat, j: nat)
    requires IsRun(cs, ws, steps) && i < j <= |steps|
    requires steps[i] == Replace(c) && NoStraddle(ws, steps, c, i, j)
    ensures Unbroken(ws[j], c)
  {
    hide Next, Enabled, Start, Sound, Unbroken, Straddles;
    EntriesGenuine(cs, ws, steps, j - 1);
    assert StepOk(ws[j - 1], steps[j - 1], ws[j]);
    if steps[j - 1] == Replace(c) {
      OwnReplaceFresh(ws[j - 1], c);
    } else {
      EntryStaysFresh(cs, ws, steps, c, i, j - 1);
      match steps[j - 1]
      case Read(d, record) => ReadKeepsUnbroken(ws[j - 1], d, record, c);
      case Replace(d) =>
        assert !Straddles(ws[j - 1], steps[j - 1].c, c);
        OtherReplaceKeepsIff(ws[j - 1], d, c);
    }
  }
}
