/** Sliding one-second windows over event times (integrity/agent.py). */
module Rates {

  /** The times less than one second old. */
  function Recent(ts: seq<real>, now: real): seq<real> {
    if ts == [] then []
    else Recent(ts[..|ts| - 1], now) + if now - ts[|ts| - 1] < 1.0 then [ts[|ts| - 1]] else []
  }

  /** The window kept by the agent: append, then drop what is too old. */
  function Rolling(ts: seq<real>): seq<real> {
    if ts == [] then []
    else Recent(Rolling(ts[..|ts| - 1]) + [ts[|ts| - 1]], ts[|ts| - 1])
  }

  predicate Nondecreasing(ts: seq<real>) {
    forall i, j :: 0 <= i <= j < |ts| ==> ts[i] <= ts[j]
  }

  method FilterRecent(ts: seq<real>, now: real) returns (r: seq<real>)
    ensures r == Recent(ts, now)
  {
    r := [];
    for i := 0 to |ts|
      invariant r == Recent(ts[..i], now)
    {
      assert ts[..i + 1][..i] == ts[..i];
      if now - ts[i] < 1.0 {
        r := r + [ts[i]];
      }
    }
    assert ts[..|ts|] == ts;
  }

  lemma {:induction false} RecentOfRecent(ts: seq<real>, t: real, now: real)
    requires t <= now
    ensures Recent(Recent(ts, t), now) == Recent(ts, now)
  {
    if ts != [] {
      var n := |ts| - 1;
      RecentOfRecent(ts[..n], t, now);
      var older := Recent(ts[..n], t);
      if t - ts[n] < 1.0 {
        assert (older + [ts[n]])[..|older|] == older;
      } else {
        assert older + [] == older;
      }
    }
  }

  /** Under a clock that never goes back, filtering step by step is filtering the whole history. */
  lemma {:induction false} RollingIsRecent(ts: seq<real>)
    requires Nondecreasing(ts) && ts != []
    ensures Rolling(ts) == Recent(ts, ts[|ts| - 1])
  {
    var n := |ts| - 1;
    var before := Rolling(ts[..n]);
    assert (before + [ts[n]])[..|before|] == before;
    if n > 0 {
      assert ts[..n][n - 1] == ts[n - 1];
      RollingIsRecent(ts[..n]);
      RecentOfRecent(ts[..n], ts[n - 1], ts[n]);
    }
  }

  lemma {:induction false} RecentExceeds(ts: seq<real>, now: real, limit: nat)
    requires Nondecreasing(ts)
    ensures |Recent(ts, now)| > limit <==> |ts| > limit && now - ts[|ts| - 1 - limit] < 1.0
    decreases |ts|
  {
    if ts != [] {
      var n := |ts| - 1;
      var init := ts[..n];
      if limit > 0 {
        RecentExceeds(init, now, limit - 1);
      }
      RecentExceeds(init, now, 0);
      if n >= limit > 0 {
        assert init[|init| - 1 - (limit - 1)] == ts[n - limit];
      }
      if now - ts[n] >= 1.0 && n > 0 {
        assert ts[n - 1] <= ts[n] && init[n - 1] == ts[n - 1];
      }
    }
  }

  /** How many of the events are less than one second old at the last one. */
  function InLastSecond(ts: seq<real>): nat
    requires ts != []
  {
    |set i | 0 <= i < |ts| && ts[|ts| - 1] - ts[i] < 1.0|
  }

  lemma {:induction false} RecentCounts(ts: seq<real>, now: real)
    ensures |Recent(ts, now)| == |set i | 0 <= i < |ts| && now - ts[i] < 1.0|
  {
    if ts != [] {
      var n := |ts| - 1;
      RecentCounts(ts[..n], now);
      var before := set i | 0 <= i < n && now - ts[..n][i] < 1.0;
      assert (set i | 0 <= i < |ts| && now - ts[i] < 1.0) == before + if now - ts[n] < 1.0 then {n} else {};
    }
  }

  /** The window after an event has one entry for each event that is less than one second old. */
  lemma RollingCounts(ts: seq<real>)
    requires Nondecreasing(ts) && ts != []
    ensures |Rolling(ts)| == InLastSecond(ts)
  {
    RollingIsRecent(ts);
    RecentCounts(ts, ts[|ts| - 1]);
  }

  /** The rate after the n-th event exceeds the limit exactly when the event `limit` positions
      earlier is less than one second old. */
  lemma RateExceeds(ts: seq<real>, limit: nat)
    requires Nondecreasing(ts) && ts != []
    ensures |Rolling(ts)| > limit <==>
            |ts| > limit && ts[|ts| - 1] - ts[|ts| - 1 - limit] < 1.0
  {
    RollingIsRecent(ts);
    RecentExceeds(ts, ts[|ts| - 1], limit);
  }
}
