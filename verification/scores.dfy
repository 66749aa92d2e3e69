/**
 * The score confirmation protocol of the tournament manager, as a function of
 * the in-memory claims: one report from a player of a match is kept as a
 * claim, and the opponent's mirrored report commits the result to the
 * bracket. A host's report is trusted as it is.
 */
module Scores {
  import opened Wrappers
  import opened Js

  /** A claim: the first report of a match, from one of its players. */
  datatype MatchScore = MatchScore(playerId: int, playerDiscord: string, playerScore: JsInt, oppScore: JsInt)

  /** What is sent to the bracket: the winner's id, then the winner's and the loser's score. */
  datatype Verdict = Verdict(winner: int, winnerScore: JsInt, loserScore: JsInt)

  datatype Outcome =
    | HostSubmitted
    | NoOpenMatch
    | AlreadyReported
    | Confirmed(claim: MatchScore)
    | Mismatched(claim: MatchScore)
    | Recorded

  /** The claims after a report, what the report sends to the bracket, and which case it was. */
  datatype Step = Step(claims: map<int, MatchScore>, verdict: Option<Verdict>, outcome: Outcome)

  /** Whether a report mirrors a claim: own score equals the claim's opponent score and vice versa (with `===`). */
  predicate Mirrors(c: MatchScore, own: JsInt, opp: JsInt) {
    own.StrictEq(c.oppScore) && opp.StrictEq(c.playerScore)
  }

  /**
   * submitScore's decision for a report of `own`-`opp` by the player `reporter`
   * whose open match is `openMatch`. A host report is sent as it is, before the
   * open match is even looked at. On agreement the claim is left in place;
   * only a mismatch removes it.
   */
  function Report(claims: map<int, MatchScore>, host: bool, openMatch: Option<int>,
                  reporter: int, reporterDiscord: string, own: JsInt, opp: JsInt): Step
  {
    if host then Step(claims, Some(Verdict(reporter, own, opp)), HostSubmitted)
    else if openMatch.None? then Step(claims, None, NoOpenMatch)
    else if openMatch.value in claims then
      var c := claims[openMatch.value];
      if c.playerId == reporter then Step(claims, None, AlreadyReported)
      else if Mirrors(c, own, opp) then
        var weWon := own.Gt(opp);
        var winner := if weWon then reporter else c.playerId;
        var winnerScore := if weWon then own else opp;
        var loserScore := if weWon then opp else own;
        Step(claims, Some(Verdict(winner, winnerScore, loserScore)), Confirmed(c))
      else Step(claims - {openMatch.value}, None, Mismatched(c))
    else Step(claims[openMatch.value := MatchScore(reporter, reporterDiscord, own, opp)], None, Recorded)
  }

  /** A host report sends the reporter's scores at once and leaves the claims alone, open match or not. */
  lemma HostReportBypassesClaims(claims: map<int, MatchScore>, openMatch: Option<int>, reporter: int, d: string, own: JsInt, opp: JsInt)
    ensures var s := Report(claims, true, openMatch, reporter, d, own, opp);
            s.claims == claims && s.verdict == Some(Verdict(reporter, own, opp)) && s.outcome == HostSubmitted
  {
  }

  /** A player report without an open match changes nothing and sends nothing. */
  lemma NoMatchChangesNothing(claims: map<int, MatchScore>, reporter: int, d: string, own: JsInt, opp: JsInt)
    ensures Report(claims, false, None, reporter, d, own, opp) == Step(claims, None, NoOpenMatch)
  {
  }

  /** The first report of a match is stored as its claim, and nothing is sent. */
  lemma FirstReportIsStored(claims: map<int, MatchScore>, m: int, reporter: int, d: string, own: JsInt, opp: JsInt)
    requires m !in claims
    ensures var s := Report(claims, false, Some(m), reporter, d, own, opp);
            && s.claims == claims[m := MatchScore(reporter, d, own, opp)]
            && s.verdict.None? && s.outcome == Recorded
  {
  }

  /** A second report by the player who made the claim is turned away; the claim stays. */
  lemma DoubleReportIsRejected(claims: map<int, MatchScore>, m: int, d: string, own: JsInt, opp: JsInt)
    requires m in claims
    ensures var s := Report(claims, false, Some(m), claims[m].playerId, d, own, opp);
            s.claims == claims && s.verdict.None? && s.outcome == AlreadyReported
  {
  }

  /**
   * The opponent's mirrored report sends one verdict naming the higher scorer
   * as winner, with the winner's score first; on a tie the claimant is named
   * winner with equal scores. The claim itself is kept.
   */
  lemma AgreementCommitsOnce(claims: map<int, MatchScore>, m: int, reporter: int, d: string, own: JsInt, opp: JsInt)
    requires m in claims && claims[m].playerId != reporter && Mirrors(claims[m], own, opp)
    ensures var s := Report(claims, false, Some(m), reporter, d, own, opp);
            && s.claims == claims && s.outcome == Confirmed(claims[m]) && s.verdict.Some?
            && s.verdict.value.winnerScore.Num? && s.verdict.value.loserScore.Num?
            && s.verdict.value.winnerScore.value >= s.verdict.value.loserScore.value
            && (own.value > opp.value ==> s.verdict.value == Verdict(reporter, own, opp))
            && (own.value <= opp.value ==> s.verdict.value == Verdict(claims[m].playerId, opp, own))
            && (own.value == opp.value ==> s.verdict.value.winner == claims[m].playerId)
  {
  }

  /** The opponent's report that does not mirror the claim removes the claim and sends nothing. */
  lemma MismatchClearsClaim(claims: map<int, MatchScore>, m: int, reporter: int, d: string, own: JsInt, opp: JsInt)
    requires m in claims && claims[m].playerId != reporter && !Mirrors(claims[m], own, opp)
    ensures var s := Report(claims, false, Some(m), reporter, d, own, opp);
            s.claims == claims - {m} && m !in s.claims && s.verdict.None? && s.outcome == Mismatched(claims[m])
  {
  }

  /** A player's report that does not parse as a number is never confirmed. */
  lemma NaNIsNeverConfirmed(claims: map<int, MatchScore>, openMatch: Option<int>, reporter: int, d: string, own: JsInt, opp: JsInt)
    requires own.NaN? || opp.NaN?
    ensures Report(claims, false, openMatch, reporter, d, own, opp).verdict.None?
  {
  }

  /**
   * Both players of a match report the same result, one after the other: the
   * second report commits it, with the higher scorer as winner (the first
   * reporter on a tie). `a` and `b` are the first reporter's own and opponent scores.
   */
  lemma {:induction false} TwoMatchingReportsCommit(claims: map<int, MatchScore>, m: int, first: int, firstDiscord: string,
                                                     second: int, secondDiscord: string, a: int, b: int)
    requires m !in claims && first != second
    ensures var s1 := Report(claims, false, Some(m), first, firstDiscord, Num(a), Num(b));
            var s2 := Report(s1.claims, false, Some(m), second, secondDiscord, Num(b), Num(a));
            && s1.verdict.None?
            && s2.verdict == Some(if b > a then Verdict(second, Num(b), Num(a)) else Verdict(first, Num(a), Num(b)))
            && s2.claims == s1.claims && m in s2.claims
  {
    var s1 := Report(claims, false, Some(m), first, firstDiscord, Num(a), Num(b));
    FirstReportIsStored(claims, m, first, firstDiscord, Num(a), Num(b));
    AgreementCommitsOnce(s1.claims, m, second, secondDiscord, Num(b), Num(a));
  }

  /**
   * Because agreement keeps the claim, the same confirming report made again
   * commits the same verdict a second time.
   */
  lemma {:induction false} RepeatedConfirmationCommitsAgain(claims: map<int, MatchScore>, m: int, reporter: int, d: string, own: JsInt, opp: JsInt)
    requires m in claims && claims[m].playerId != reporter && Mirrors(claims[m], own, opp)
    ensures var s1 := Report(claims, false, Some(m), reporter, d, own, opp);
            var s2 := Report(s1.claims, false, Some(m), reporter, d, own, opp);
            s1.verdict.Some? && s2.verdict == s1.verdict
  {
    AgreementCommitsOnce(claims, m, reporter, d, own, opp);
  }
}
