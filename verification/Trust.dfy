/** Trust scores of peers (integrity/agent.py), in hundredths: 1.0 is 100. */
module Trust {

  const FULL_TRUST := 100
  const LOW_TRUST := 30

  /** What can happen to a peer's score. */
  datatype TrustEvent = BadSignature | NoResponse | Boost

  function Min(a: int, b: int): int {
    if a < b then a else b
  }

  function Max(a: int, b: int): int {
    if a < b then b else a
  }

  function Adjusted(score: int, e: TrustEvent): int {
    match e
    case BadSignature => Max(0, score - 30)
    case NoResponse => Max(0, score - 25)
    case Boost => Min(FULL_TRUST, score + 2)
  }

  /** The score after a history of events, starting from full trust. */
  function Score(es: seq<TrustEvent>): int {
    if es == [] then FULL_TRUST else Adjusted(Score(es[..|es| - 1]), es[|es| - 1])
  }

  function Count(es: seq<TrustEvent>, e: TrustEvent): nat {
    if es == [] then 0 else Count(es[..|es| - 1], e) + if es[|es| - 1] == e then 1 else 0
  }

  /** Net loss of a stretch of events, if nothing were clamped. */
  function Loss(es: seq<TrustEvent>): int {
    30 * Count(es, BadSignature) + 25 * Count(es, NoResponse) - 2 * Count(es, Boost)
  }

  lemma {:induction false} ScoreInRange(es: seq<TrustEvent>)
    ensures 0 <= Score(es) <= 100
  {
    if es != [] {
      ScoreInRange(es[..|es| - 1]);
    }
  }

  /** Since the last moment of full trust the score fell by no more than the net loss. */
  lemma {:induction false} LossSinceFullTrust(es: seq<TrustEvent>) returns (i: nat)
    ensures i <= |es| && Score(es[..i]) == 100
    ensures Score(es) >= 100 - Loss(es[i..])
  {
    if Score(es) == 100 {
      i := |es|;
      assert es[..i] == es;
    } else {
      var n := |es| - 1;
      i := LossSinceFullTrust(es[..n]);
      assert es[..n][..i] == es[..i];
      var tail := es[i..];
      assert tail[..|tail| - 1] == es[..n][i..];
    }
  }

  /** A score below 0.30 has a cause in the history: a suffix with b bad signatures, k missing
      responses and g boosts such that 30b + 25k - 2g > 70, hence at least three penalties. */
  lemma LowScoreHasCause(es: seq<TrustEvent>) returns (i: nat)
    requires Score(es) < 30
    ensures i <= |es| && Loss(es[i..]) > 70
    ensures Count(es[i..], BadSignature) + Count(es[i..], NoResponse) >= 3
  {
    i := LossSinceFullTrust(es);
  }

  /** Without boosts in between, a stretch of penalties costs exactly its loss, down to zero. */
  lemma {:induction false} PenaltiesAddUp(es: seq<TrustEvent>)
    requires Boost !in es
    ensures Score(es) == Max(0, 100 - Loss(es))
  {
    if es != [] {
      var n := |es| - 1;
      assert es[n] in es;
      PenaltiesAddUp(es[..n]);
      NoBoosts(es);
      NoBoosts(es[..n]);
    }
  }

  lemma {:induction false} NoBoosts(es: seq<TrustEvent>)
    requires Boost !in es
    ensures Count(es, Boost) == 0
  {
    if es != [] {
      assert es[|es| - 1] in es;
      NoBoosts(es[..|es| - 1]);
    }
  }
}
