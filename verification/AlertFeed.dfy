/** The shared alert file (integrity/agent.py, `_alert`), which keeps the last 500 alerts, and the
    dashboard's poller with its cursor (dashboard/app.py). Appends and reads are atomic. */
module AlertFeed {
  import opened Prelude
  import opened Agent

  const KEPT: nat := 500

  function Trim(alerts: seq<Alert>): (r: seq<Alert>)
    ensures |r| == if |alerts| <= 500 then |alerts| else 500
    ensures r == alerts[|alerts| - |r|..]
  {
    if |alerts| <= KEPT then alerts else alerts[|alerts| - KEPT..]
  }

  type Key = (AlertKind, real)

  function KeyOf(a: Alert): Key {
    (a.kind, a.ts)
  }

  function KeysOf(alerts: seq<Alert>): set<Key> {
    set i | 0 <= i < |alerts| :: KeyOf(alerts[i])
  }

  /** The first alert of every (kind, time), in order. */
  function Dedup(alerts: seq<Alert>): seq<Alert> {
    if alerts == [] then []
    else
      var init, a := alerts[..|alerts| - 1], alerts[|alerts| - 1];
      Dedup(init) + if KeyOf(a) in KeysOf(init) then [] else [a]
  }

  /** What the poller remembers. */
  datatype Cursor = Cursor(count: nat, seen: set<Key>, emitted: seq<Alert>)

  const UNREAD := Cursor(0, {}, [])

  function Emit(c: Cursor, a: Alert): Cursor {
    if KeyOf(a) in c.seen then c else c.(seen := c.seen + {KeyOf(a)}, emitted := c.emitted + [a])
  }

  function EmitAll(c: Cursor, alerts: seq<Alert>): Cursor {
    if alerts == [] then c else Emit(EmitAll(c, alerts[..|alerts| - 1]), alerts[|alerts| - 1])
  }

  /** The entries from position n on; none if the list is shorter. */
  function From(alerts: seq<Alert>, n: nat): seq<Alert> {
    if n <= |alerts| then alerts[n..] else []
  }

  function PollFile(c: Cursor, file: seq<Alert>): Cursor {
    if |file| == c.count then c else EmitAll(c, From(file, c.count)).(count := |file|)
  }

  /** Everything since the last reset: `history` is all alerts raised, `read` all entries the poller
      has been handed, `places` their positions in the history, and `polledAt` how many alerts there
      were at the last poll. */
  datatype World = World(file: seq<Alert>, history: seq<Alert>, cursor: Cursor, read: seq<Alert>,
                         places: seq<nat>, polledAt: nat)

  const EMPTY := World([], [], UNREAD, [], [], 0)

  /** Positions n, n + 1, ..., m - 1. */
  function Range(n: nat, m: nat): (r: seq<nat>)
    requires n <= m
    ensures |r| == m - n && forall i :: 0 <= i < |r| ==> r[i] == n + i
  {
    if n == m then [] else Range(n, m - 1) + [m - 1]
  }

  /** The first position in the history that a poll hands over now: the file ends where the history
      ends, and the poller skips `count` entries of it. */
  function FirstHanded(w: World): nat {
    if w.cursor.count <= |w.file| <= |w.history| then |w.history| - |w.file| + w.cursor.count else |w.history|
  }

  datatype Step = Append(a: Alert) | PollOnce | Reset

  function Next(w: World, s: Step): World {
    match s
    case Append(a) => w.(file := Trim(w.file + [a]), history := w.history + [a])
    case PollOnce =>
      w.(cursor := PollFile(w.cursor, w.file), read := w.read + From(w.file, w.cursor.count),
         places := w.places + Range(FirstHanded(w), |w.history|), polledAt := |w.history|)
    case Reset => EMPTY
  }

  function RunFrom(w: World, steps: seq<Step>): World {
    if steps == [] then w else Next(RunFrom(w, steps[..|steps| - 1]), steps[|steps| - 1])
  }

  function Run(steps: seq<Step>): World {
    RunFrom(EMPTY, steps)
  }

  // ---------------------------------------------------------------- every run

  /** What was handed over are entries of the history, at increasing positions. */
  predicate HandedInOrder(history: seq<Alert>, read: seq<Alert>, places: seq<nat>, end: nat) {
    && |places| == |read| && end <= |history|
    && (forall i :: 0 <= i < |places| ==> places[i] < end && read[i] == history[places[i]])
    && (forall i, j :: 0 <= i < j < |places| ==> places[i] < places[j])
  }

  predicate Faithful(w: World) {
    && w.file == Trim(w.history)
    && w.cursor.seen == KeysOf(w.read)
    && w.cursor.emitted == Dedup(w.read)
    && w.polledAt <= |w.history|
    && |w.read| == w.cursor.count == (if w.polledAt <= 500 then w.polledAt else 500)
    && HandedInOrder(w.history, w.read, w.places, w.polledAt)
  }

  lemma TrimStep(h: seq<Alert>, a: Alert)
    ensures Trim(Trim(h) + [a]) == Trim(h + [a])
  {
  }

  lemma KeysAppend(alerts: seq<Alert>, a: Alert)
    ensures KeysOf(alerts + [a]) == KeysOf(alerts) + {KeyOf(a)}
  {
    var all := alerts + [a];
    assert all[|alerts|] == a;
    forall key | key in KeysOf(alerts) ensures key in KeysOf(all) {
      var i :| 0 <= i < |alerts| && KeyOf(alerts[i]) == key;
      assert all[i] == alerts[i];
    }
  }

  /** Alerts of one kind and time are shown once. */
  predicate SameKindAndTime(a: Alert, b: Alert) {
    a.kind == b.kind && a.ts == b.ts
  }

  lemma {:induction false} DedupFromAlerts(alerts: seq<Alert>, a: Alert)
    requires a in Dedup(alerts)
    ensures a in alerts
  {
    var n := |alerts| - 1;
    if a in Dedup(alerts[..n]) {
      DedupFromAlerts(alerts[..n], a);
    }
  }

  lemma {:induction false} DedupShowsAll(alerts: seq<Alert>, a: Alert) returns (e: Alert)
    requires a in alerts
    ensures e in Dedup(alerts) && SameKindAndTime(a, e)
  {
    var n := |alerts| - 1;
    if a in alerts[..n] {
      e := DedupShowsAll(alerts[..n], a);
    } else if KeyOf(a) in KeysOf(alerts[..n]) {
      var i :| 0 <= i < n && KeyOf(alerts[..n][i]) == KeyOf(a);
      e := DedupShowsAll(alerts[..n], alerts[i]);
    } else {
      e := a;
    }
  }

  lemma {:induction false} DedupDistinct(alerts: seq<Alert>, i: nat, j: nat)
    requires i < j < |Dedup(alerts)|
    ensures !SameKindAndTime(Dedup(alerts)[i], Dedup(alerts)[j])
  {
    var n := |alerts| - 1;
    var kept := Dedup(alerts[..n]);
    if j < |kept| {
      DedupDistinct(alerts[..n], i, j);
    } else {
      DedupFromAlerts(alerts[..n], kept[i]);
      var x :| 0 <= x < n && alerts[..n][x] == kept[i];
      assert KeyOf(kept[i]) in KeysOf(alerts[..n]);
    }
  }

  /** The dashboard shows, of what it was handed, an alert of every kind and time that occurs, and no
      two of the same kind and time. */
  lemma EmittedOnceEach(w: World)
    requires Faithful(w)
    ensures forall e :: e in w.cursor.emitted ==> e in w.read
    ensures forall a :: a in w.read ==> exists e :: e in w.cursor.emitted && SameKindAndTime(a, e)
    ensures forall i, j :: 0 <= i < j < |w.cursor.emitted| ==>
              !SameKindAndTime(w.cursor.emitted[i], w.cursor.emitted[j])
  {
    hide Dedup, KeysOf, HandedInOrder, SameKindAndTime;
    forall e | e in w.cursor.emitted ensures e in w.read {
      DedupFromAlerts(w.read, e);
    }
    forall a | a in w.read ensures exists e :: e in w.cursor.emitted && SameKindAndTime(a, e) {
      var e := DedupShowsAll(w.read, a);
    }
    forall i, j | 0 <= i < j < |w.cursor.emitted|
      ensures !SameKindAndTime(w.cursor.emitted[i], w.cursor.emitted[j])
    {
      DedupDistinct(w.read, i, j);
    }
  }

  /** Feeding entries one by one to the poller deduplicates what it has been handed in all. */
  lemma {:induction false} EmitAllDedups(c: Cursor, read: seq<Alert>, more: seq<Alert>)
    requires c.seen == KeysOf(read) && c.emitted == Dedup(read)
    ensures var c' := EmitAll(c, more);
      c'.seen == KeysOf(read + more) && c'.emitted == Dedup(read + more) && c'.count == c.count
  {
    if more == [] {
      assert read + more == read;
    } else {
      var n := |more| - 1;
      EmitAllDedups(c, read, more[..n]);
      var before := read + more[..n];
      assert before + [more[n]] == read + more;
      assert (read + more)[..|read + more| - 1] == before;
      KeysAppend(before, more[n]);
    }
  }

  lemma HandMore(history: seq<Alert>, read: seq<Alert>, places: seq<nat>, end: nat, first: nat)
    requires HandedInOrder(history, read, places, end) && end <= first <= |history|
    ensures HandedInOrder(history, read + history[first..], places + Range(first, |history|), |history|)
  {
  }

  /** A poll hands over exactly the entries of the history from `FirstHanded` on. The alerts raised
      between the last poll and that position are the ones it loses. */
  lemma PollHandsOver(w: World)
    requires Faithful(w)
    ensures From(w.file, w.cursor.count) == w.history[FirstHanded(w)..]
    ensures w.polledAt <= FirstHanded(w) <= |w.history|
    ensures FirstHanded(w) - w.polledAt
            == if |w.history| <= 500 then 0
               else if w.polledAt <= 500 then |w.history| - 500
               else |w.history| - w.polledAt
  {
    hide Dedup, KeysOf, HandedInOrder;
  }

  lemma PollFaithful(w: World)
    requires Faithful(w)
    ensures Faithful(Next(w, PollOnce))
  {
    hide Dedup, KeysOf, EmitAll, HandedInOrder;
    var more := From(w.file, w.cursor.count);
    EmitAllDedups(w.cursor, w.read, more);
    if |w.file| == w.cursor.count {
      assert w.read + more == w.read;
    }
    PollHandsOver(w);
    HandMore(w.history, w.read, w.places, w.polledAt, FirstHanded(w));
  }

  lemma AppendHanded(history: seq<Alert>, read: seq<Alert>, places: seq<nat>, end: nat, a: Alert)
    requires HandedInOrder(history, read, places, end)
    ensures HandedInOrder(history + [a], read, places, end)
  {
  }

  lemma AppendFaithful(w: World, a: Alert)
    requires Faithful(w)
    ensures Faithful(Next(w, Append(a)))
  {
    hide Dedup, KeysOf, HandedInOrder;
    TrimStep(w.history, a);
    AppendHanded(w.history, w.read, w.places, w.polledAt, a);
  }

  /** In every interleaving of appends, polls and resets: the file is the last 500 alerts since the
      reset, the poller has been handed entries of the history in order and none twice, and what it
      has emitted is the order-preserving deduplication of that. */
  lemma {:induction false} RunFaithful(steps: seq<Step>)
    ensures Faithful(Run(steps))
  {
    hide Faithful, Next;
    if steps == [] {
      EmptyFaithful();
    } else {
      var n := |steps| - 1;
      RunFaithful(steps[..n]);
      match steps[n]
      case Append(a) => AppendFaithful(Run(steps[..n]), a);
      case PollOnce => PollFaithful(Run(steps[..n]));
      case Reset => ResetFaithful(Run(steps[..n]));
    }
  }

  lemma EmptyFaithful()
    ensures Faithful(EMPTY)
  {
    assert KeysOf([]) == {};
  }

  lemma ResetFaithful(w: World)
    ensures Faithful(Next(w, Reset))
  {
    EmptyFaithful();
  }

  /** The position in the history has been handed to the poller. */
  predicate Handed(w: World, place: nat) {
    place in w.places
  }

  /** Which alerts a poll loses: of those raised since the last poll exactly the ones before
      `FirstHanded` are passed over, and they are never handed over later. There are none while at
      most 500 alerts were raised since the reset; otherwise all those beyond 500, counted from the
      first poll that met them. */
  lemma PollLoses(w: World, place: nat)
    requires Faithful(w) && place < |w.history|
    ensures var w' := Next(w, PollOnce);
      Handed(w', place) <==> if place < w.polledAt then Handed(w, place) else place >= FirstHanded(w)
  {
    hide Dedup, KeysOf, EmitAll;
    PollHandsOver(w);
    var more := Range(FirstHanded(w), |w.history|);
    assert place >= FirstHanded(w) ==> more[place - FirstHanded(w)] == place;
  }

  /** With at most 500 alerts since the reset nothing is lost: what was handed over is the history up
      to the last poll, and what was shown is its deduplication. */
  lemma SmallFeedIsComplete(w: World)
    requires Faithful(w) && w.polledAt <= 500
    ensures w.read == w.history[..w.polledAt]
    ensures w.cursor.emitted == Dedup(w.history[..w.polledAt])
  {
    hide Dedup, KeysOf;
    forall i | 0 <= i < |w.places| ensures w.places[i] == i {
      IncreasingIsIdentity(w.places, i);
    }
  }

  /** n increasing positions below n are 0, 1, ..., n - 1. */
  lemma IncreasingIsIdentity(places: seq<nat>, i: nat)
    requires i < |places|
    requires forall a :: 0 <= a < |places| ==> places[a] < |places|
    requires forall a, b :: 0 <= a < b < |places| ==> places[a] < places[b]
    ensures places[i] == i
  {
    GapsUp(places, 0, i);
    GapsUp(places, i, |places| - 1);
  }

  lemma {:induction false} GapsUp(places: seq<nat>, a: nat, b: nat)
    requires a <= b < |places|
    requires forall x, y :: 0 <= x < y < |places| ==> places[x] < places[y]
    ensures places[b] - places[a] >= b - a
  {
    if a < b {
      GapsUp(places, a, b - 1);
    }
  }

  /** A poll leaves nothing unread exactly when at most 500 alerts were raised since the reset; then
      the dashboard has shown the deduplication of all of them. */
  lemma PollCompleteIff(w: World)
    requires Faithful(w)
    ensures var w' := Next(w, PollOnce);
      && ((forall place: nat :: place < |w.history| ==> Handed(w', place)) <==> |w.history| <= 500)
      && (|w.history| <= 500 ==> w'.read == w.history && w'.cursor.emitted == Dedup(w.history))
  {
    hide Dedup, KeysOf, EmitAll, From, FirstHanded, HandedInOrder, Next, Trim;
    var w' := Next(w, PollOnce);
    PollFaithful(w);
    PollKeepsHistory(w);
    if |w.history| <= 500 {
      SmallFeedIsComplete(w');
      assert w.history[..|w.history|] == w.history;
      forall place: nat | place < |w.history| ensures Handed(w', place) {
        SmallFeedHands(w', place);
      }
    } else {
      TooFewPlaces(w', |w.history|);
    }
  }

  lemma PollKeepsHistory(w: World)
    ensures Next(w, PollOnce).history == w.history && Next(w, PollOnce).polledAt == |w.history|
  {
  }

  lemma SmallFeedHands(w: World, place: nat)
    requires Faithful(w) && place < w.polledAt <= 500
    ensures Handed(w, place)
  {
    hide Dedup, KeysOf, Trim;
    IncreasingIsIdentity(w.places, place);
  }

  lemma TooFewPlaces(w: World, n: nat)
    requires Faithful(w) && n > 500
    ensures exists place: nat :: place < n && !Handed(w, place)
  {
    hide Dedup, KeysOf, Trim;
    if forall place: nat :: place < n ==> Handed(w, place) {
      forall place: nat | place <= n - 1 ensures place in w.places {
        assert Handed(w, place);
      }
      var i := IndexOf(w.places, n - 1);
    }
  }

  /** Where all positions up to `place` occur in increasing order, `place` has at least that many
      before it. */
  lemma {:induction false} IndexOf(places: seq<nat>, place: nat) returns (i: nat)
    requires forall p: nat :: p <= place ==> p in places
    requires forall x, y :: 0 <= x < y < |places| ==> places[x] < places[y]
    ensures place <= i < |places| && places[i] == place
  {
    assert place in places;
    i :| 0 <= i < |places| && places[i] == place;
    if place > 0 {
      var j := IndexOf(places, place - 1);
    }
  }

  /** Once a poll has seen 500 entries the feed is dead: whatever is raised later, nothing more is
      emitted until a reset. */
  lemma {:induction false} FullFileSilencesPoller(w: World, steps: seq<Step>)
    requires Faithful(w) && w.cursor.count == 500 && Reset !in steps
    ensures var w' := RunFrom(w, steps);
      Faithful(w') && w'.cursor == w.cursor
  {
    hide Dedup, KeysOf, EmitAll, Trim;
    if steps != [] {
      var n := |steps| - 1;
      assert steps[n] in steps;
      FullFileSilencesPoller(w, steps[..n]);
      var v := RunFrom(w, steps[..n]);
      TrimLength(v.history);
      match steps[n]
      case Append(a) => AppendFaithful(v, a);
      case PollOnce => PollFaithful(v);
    }
  }

  lemma TrimLength(h: seq<Alert>)
    ensures |Trim(h)| <= 500
  {
  }

  // ---------------------------------------------------------------- the objects

  /** The alert file. */
  class AlertFile {
    var alerts: seq<Alert>

    constructor ()
      ensures alerts == []
    {
      alerts := [];
    }

    method AppendAlert(a: Alert)
      modifies this
      ensures alerts == Trim(old(alerts) + [a])
    {
      alerts := alerts + [a];
      if |alerts| > KEPT {
        alerts := alerts[|alerts| - KEPT..];
      }
    }
  }

  class Poller {
    var count: nat
    var seen: set<Key>
    var emitted: seq<Alert>

    ghost function View(): Cursor
      reads this
    {
      Cursor(count, seen, emitted)
    }

    constructor ()
      ensures View() == UNREAD
    {
      count, seen, emitted := 0, {}, [];
    }

    /** One round of the poller over the alert file. */
    method PollAlerts(file: AlertFile)
      modifies this
      ensures View() == PollFile(old(View()), file.alerts)
    {
      var alerts := file.alerts;
      if |alerts| != count {
        var unread := if count <= |alerts| then alerts[count..] else [];
        count := |alerts|;
        for i := 0 to |unread|
          invariant View() == EmitAll(old(View()), unread[..i]).(count := |alerts|)
        {
          assert unread[..i + 1][..i] == unread[..i];
          var key := KeyOf(unread[i]);
          if key !in seen {
            seen := seen + {key};
            emitted := emitted + [unread[i]];
          }
        }
        assert unread[..|unread|] == unread;
      }
    }

    /** `api_reset`: empties the file, forgets everything, and rewrites the state file, if there is
        one, with every controller marked healthy and without alerts. */
    method ResetAll(file: AlertFile, state: Option<map<string, Record>>)
      returns (state': Option<map<string, Record>>)
      modifies this, file
      ensures View() == UNREAD && file.alerts == []
      ensures state'.Some? == state.Some?
      ensures state.Some? ==> Restored(state.value, state'.value)
    {
      file.alerts := [];
      state' := state;
      if state.Some? {
        var records, todo := state.value, state.value.Keys;
        while todo != {}
          invariant records.Keys == state.value.Keys && todo <= records.Keys
          invariant forall cid :: cid in todo ==> records[cid] == state.value[cid]
          invariant forall cid :: cid in records && cid !in todo ==>
                      records[cid] == state.value[cid].(healthy := true, alerts := 0)
        {
          var cid :| cid in todo;
          records := records[cid := records[cid].(healthy := true, alerts := 0)];
          todo := todo - {cid};
        }
        state' := Some(records);
      }
      count, seen, emitted := 0, {}, [];
    }
  }

  /** The same controllers, each healthy, without alerts, and otherwise as it was. */
  predicate Restored(before: map<string, Record>, after: map<string, Record>) {
    && after.Keys == before.Keys
    && forall cid :: cid in before ==> after[cid] == before[cid].(healthy := true, alerts := 0)
  }
}
