/**
 One customer and one business after a pass, whatever fails, with the decisions written out: what is recorded, whose tier goes
 down, who is counted.
 */
module RescreenOutcomes {
  import opened Wrappers
  import opened Rescreen

  // The four verdicts in order of severity.
  const SEVERITY := ["clear", "possible", "strong", "blocked"]

  predicate Opinion(decision: string) {
    decision in {"clear", "possible", "strong", "blocked"}
  }

  predicate AtLeastAsSevere(a: string, b: string) {
    exists i, j :: 0 <= j <= i < 4 && SEVERITY[i] == a && SEVERITY[j] == b
  }

  lemma {:induction false} RanksAreSeverities(decision: string)
    ensures Opinion(decision) <==> Rank(decision) >= 0
    ensures forall i :: 0 <= i < 4 ==> (SEVERITY[i] == decision <==> Rank(decision) == i)
  {
  }

  lemma {:induction false} SeverityIsRank(a: string, b: string)
    requires Opinion(a) && Opinion(b)
    ensures AtLeastAsSevere(a, b) <==> Rank(a) >= Rank(b)
  {
    RanksAreSeverities(a);
    RanksAreSeverities(b);
    if Rank(a) >= Rank(b) { assert SEVERITY[Rank(a)] == a && SEVERITY[Rank(b)] == b; }
    hide Rank;
  }

  // Of two verdicts the more severe; a word that is none gives way to one that is, and two of them to nothing.
  lemma {:induction false} TheMoreSevereWins(a: string, b: string)
    ensures Stricter(a, b) == if Opinion(a) && Opinion(b) then if AtLeastAsSevere(a, b) then a else b
                              else if Opinion(a) then a else if Opinion(b) then b else ""
  {
    RanksAreSeverities(a);
    RanksAreSeverities(b);
    if Opinion(a) && Opinion(b) { SeverityIsRank(a, b); }
    hide Rank, AtLeastAsSevere;
  }

  // ---------- a customer ----------

  // What the pass goes by: the sanctions verdict, folded with the adverse-media one where that lane gave an answer that was
  // recorded or is clear; without a screener that lane counts as having no opinion.
  function GoesBy(f: Findings): string
    requires f.sanctions.Some?
  {
    match f.adverse
    case NoScreener => Stricter(f.sanctions.value, "")
    case ProviderDown => f.sanctions.value
    case Answers(d, rowFault) =>
      if d == "clear" || (d in {"possible", "strong", "blocked"} && rowFault == NoFault) then Stricter(f.sanctions.value, d)
      else f.sanctions.value
  }

  // The decision written: blocked for a watchlisted identity; nothing when the screening, the watchlist or the recording fails, or
  // for a word the table does not know.
  function Written(f: Findings): Option<string> {
    if !f.profileFound || f.sanctions.None? || f.listed.None? || f.recordFault == BeforeCommit then None
    else if f.listed.value then Some("blocked")
    else if GoesBy(f) in {"clear", "possible", "strong", "blocked", "manually_cleared"} then Some(GoesBy(f))
    else None
  }

  // A decision that stops the customer, after which nothing failed.
  predicate Stops(f: Findings) {
    Written(f).Some? && Written(f).value in {"possible", "strong", "blocked"} && f.recordFault == NoFault
  }

  lemma {:induction false} RecordedIsWritten(f: Findings)
    ensures Recorded(f) == Written(f)
    ensures Enforced(f) <==> Stops(f)
    ensures Acted(f) <==> Written(f).Some? && (Stops(f) || Written(f).value in {"clear", "manually_cleared"})
  {
    if f.adverse.Answers? { RanksAreSeverities(f.adverse.decision); }
    if Recorded(f).Some? { RanksAreSeverities(Recorded(f).value); }
    hide Stricter, Rank;
  }

  /**
   A customer after the pass: the decision and the adverse-media row are those written, if any were; one who is stopped goes down
   to L1 from L2 or L3, unless the downgrade fails, and has a case more, unless opening it fails; all others keep both.
   */
  lemma {:induction false} ACustomerAfterThePass(p: Profile, f: Findings)
    ensures var q := After(p, f);
            && q.decision == (if Written(f).Some? then Written(f) else p.decision)
            && q.adverse == (if f.profileFound && f.sanctions.Some? && f.adverse.Answers? && f.adverse.rowFault != BeforeCommit
                                && f.adverse.decision in {"possible", "strong", "blocked"} then Some(f.adverse.decision) else p.adverse)
            && q.tier == (if Stops(f) && !f.downgradeFails && p.tier in {L2, L3} then L1 else p.tier)
            && q.reviews == p.reviews + (if Stops(f) && !f.caseFails then 1 else 0)
  {
    RecordedIsWritten(f);
    if f.adverse.Answers? { RanksAreSeverities(f.adverse.decision); }
    hide Recorded, Written, Enforced, Stops, Rank;
  }

  // ---------- a business ----------

  // A business after the pass: any answer is written down if that works; one that is not clear takes it to B0 and freezes its
  // wallet, if it was above B0 and the downgrade works.
  lemma {:induction false} ABusinessAfterThePass(b: Business, f: BusinessFindings)
    ensures var q := BusinessAfter(b, f);
            var written := f.sanctions.Some? && !f.recordFails;
            var demoted := written && f.sanctions.value !in {"clear", "manually_cleared"} && !f.downgradeFails && b.tier != B0;
            && q.decision == (if written then f.sanctions else b.decision)
            && q.tier == (if demoted then B0 else b.tier) && q.walletFrozen == (b.walletFrozen || demoted)
            && (BusinessScreened(f) <==> written)
            && (BusinessBlocked(f) <==> written && f.sanctions.value !in {"clear", "manually_cleared"})
  {
  }
}
