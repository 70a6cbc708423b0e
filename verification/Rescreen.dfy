/**
 The periodic rescreen pass over customers and businesses: what is recorded, who is downgraded, and what the counters say,
 with any provider or store call failing. Decisions are the stored strings.
 */
module Rescreen {
  import opened Passes
  import opened Wrappers

  // ---------- decisions ----------

  const CLEAR := "clear"
  const POSSIBLE := "possible"
  const STRONG := "strong"
  const BLOCKED := "blocked"
  const MANUALLY_CLEARED := "manually_cleared"

  // clear < possible < strong < blocked; anything else has no opinion.
  function Rank(decision: string): int {
    if decision == CLEAR then 0
    else if decision == POSSIBLE then 1
    else if decision == STRONG then 2
    else if decision == BLOCKED then 3
    else -1
  }

  // FoldAdverseMedia
  function Stricter(a: string, b: string): string {
    if Rank(a) < 0 && Rank(b) < 0 then ""
    else if Rank(a) < 0 then b
    else if Rank(b) < 0 then a
    else if Rank(a) >= Rank(b) then a
    else b
  }

  // Only clear and manually_cleared let a profile advance.
  predicate BlockedByScreening(decision: string) {
    decision != CLEAR && decision != MANUALLY_CLEARED
  }

  // The decisions the table of screening results accepts.
  predicate Recordable(decision: string) {
    decision in {CLEAR, POSSIBLE, STRONG, BLOCKED, MANUALLY_CLEARED}
  }

  // The fold is the least upper bound of the opinions there are, whichever lane they come from.
  lemma {:induction false} StricterIsTheJoin(a: string, b: string)
    ensures Rank(Stricter(a, b)) == if Rank(a) >= Rank(b) then Rank(a) else Rank(b)
    ensures Stricter(a, b) == Stricter(b, a)
    ensures Rank(Stricter(a, b)) >= 0 <==> Stricter(a, b) != ""
    ensures forall c :: Stricter(Stricter(a, b), c) == Stricter(a, Stricter(b, c))
  {
  }

  /**
   Folding can only let a blocked decision through in one way: sanctions screening answered with a word that is not in the
   vocabulary, which the gate would block on, and adverse media answered clear.
   */
  lemma {:induction false} FoldUnblocksIff(base: string, adverse: string)
    ensures BlockedByScreening(base) && !BlockedByScreening(Stricter(base, adverse)) <==>
              Rank(base) < 0 && base != MANUALLY_CLEARED && adverse == CLEAR
  {
  }

  // ---------- tiers ----------

  // The table also admits L4, which the ladder does not know.
  datatype Tier = L0 | L1 | L2 | L3 | L4

  function Order(t: Tier): int {
    match t
    case L0 => 0
    case L1 => 1
    case L2 => 2
    case L3 => 3
    case L4 => -1
  }

  predicate CanDowngrade(from: Tier, to: Tier) {
    Order(from) >= 0 && Order(to) >= 0 && Order(to) < Order(from)
  }

  function LoweredToL1(t: Tier): Tier {
    if CanDowngrade(t, L1) then L1 else t
  }

  // A downgrade to L1 is the minimum of the two tiers on the ladder, and leaves L4 alone.
  lemma {:induction false} LoweredIsTheMinimum(t: Tier)
    ensures t != L4 ==> Order(LoweredToL1(t)) == if Order(t) < 1 then Order(t) else 1
    ensures t == L4 ==> LoweredToL1(t) == L4
  {
  }

  // ---------- one customer ----------

  // Where a recording call fails: before its commit, or after it while opening the review case.
  datatype RecordFault = NoFault | BeforeCommit | AfterCommit

  // The adverse-media lane: there is no screener, its provider errs, or it answers, and a non-clear answer is to be recorded.
  datatype Adverse = NoScreener | ProviderDown | Answers(decision: string, rowFault: RecordFault)

  datatype Findings = Findings(
    profileFound: bool, sanctions: Option<string>, adverse: Adverse, listed: Option<bool>, recordFault: RecordFault,
    downgradeFails: bool, caseFails: bool)

  // The lane's own table accepts the four ranked decisions; a clear answer is not recorded.
  predicate AdverseRow(a: Adverse) {
    a.Answers? && a.decision != CLEAR && Rank(a.decision) >= 0 && a.rowFault != BeforeCommit
  }

  // screenAdverseMediaRescreen: what the pass hears of the lane. An answer that could not be recorded is an error to it.
  function Heard(a: Adverse): Option<string> {
    match a
    case NoScreener => Some("")
    case ProviderDown => None
    case Answers(d, rowFault) => if d == CLEAR || (Rank(d) >= 0 && rowFault == NoFault) then Some(d) else None
  }

  function Folded(f: Findings): string
    requires f.sanctions.Some?
  {
    if Heard(f.adverse).Some? then Stricter(f.sanctions.value, Heard(f.adverse).value) else f.sanctions.value
  }

  // The decision written to the profile, if one is.
  function Recorded(f: Findings): Option<string> {
    if !f.profileFound || f.sanctions.None? || f.listed.None? || f.recordFault == BeforeCommit then None
    else
      var decision := if f.listed.value then BLOCKED else Folded(f);
      if Recordable(decision) then Some(decision) else None
  }

  // Whether the pass carries on to count and enforce it: a failure to open the pep_edd case drops it after the commit.
  predicate Acted(f: Findings) {
    Recorded(f).Some? && !(f.recordFault == AfterCommit && Rank(Recorded(f).value) >= 1)
  }

  predicate Enforced(f: Findings) {
    Acted(f) && BlockedByScreening(Recorded(f).value)
  }

  // Everything the store is asked to do works.
  predicate StoreWorks(f: Findings) {
    && f.profileFound && f.listed.Some? && f.recordFault == NoFault && !f.downgradeFails && !f.caseFails
    && (f.adverse.Answers? ==> f.adverse.rowFault == NoFault)
  }

  // A verdict was obtained that outranks the decision recorded.
  predicate WeakerThanObtained(f: Findings) {
    && Recorded(f).Some?
    && (Rank(Recorded(f).value) < Rank(f.sanctions.value)
        || (f.adverse.Answers? && Rank(Recorded(f).value) < Rank(f.adverse.decision))
        || (f.listed.value && Recorded(f).value != BLOCKED))
  }

  /**
   "The stricter of the two wins" holds of what is recorded with one exception: an adverse-media verdict stricter than
   the sanctions one whose row, or review case, could not be recorded, for a customer who is not on the watchlist.
   */
  lemma {:induction false} WeakerIffTheStricterRowFailed(f: Findings)
    requires Recorded(f).Some?
    ensures WeakerThanObtained(f) <==>
              !f.listed.value && f.adverse.Answers? && f.adverse.rowFault != NoFault && Rank(f.sanctions.value) < Rank(f.adverse.decision)
              && f.adverse.decision != CLEAR
  {
    if Heard(f.adverse).Some? { StricterIsTheJoin(f.sanctions.value, Heard(f.adverse).value); }
  }

  // With every row recorded, what is recorded is at least each verdict obtained, and a watchlisted identity is blocked.
  lemma {:induction false} RecordedIsNeverWeaker(f: Findings)
    requires Recorded(f).Some? && (f.adverse.Answers? ==> f.adverse.rowFault == NoFault)
    ensures Rank(Recorded(f).value) >= Rank(f.sanctions.value)
    ensures f.adverse.Answers? ==> Rank(Recorded(f).value) >= Rank(f.adverse.decision)
    ensures f.listed.value ==> Recorded(f).value == BLOCKED
  {
    WeakerIffTheStricterRowFailed(f);
  }

  // Adverse media says blocked, its row fails, and the customer is recorded as clear with tier and cases as they were.
  lemma {:induction false} ABlockedVerdictCanBeLost(p: Profile)
    ensures var f := Findings(true, Some(CLEAR), Answers(BLOCKED, BeforeCommit), Some(false), NoFault, false, false);
            WeakerThanObtained(f) && After(p, f) == p.(decision := Some(CLEAR))
  {
    var f := Findings(true, Some(CLEAR), Answers(BLOCKED, BeforeCommit), Some(false), NoFault, false, false);
    WeakerIffTheStricterRowFailed(f);
  }

  // With a working store a screened customer goes unrecorded exactly when off the watchlist with no lane having an opinion
  // (a manual clearance counts as one only when the adverse-media lane gives none that can be recorded).
  lemma {:induction false} UnrecordedIff(f: Findings)
    requires StoreWorks(f) && f.sanctions.Some?
    ensures Recorded(f).None? <==>
              !f.listed.value && Rank(f.sanctions.value) < 0
              && (f.adverse.Answers? ==> Rank(f.adverse.decision) < 0)
              && (!f.adverse.NoScreener? ==> f.sanctions.value != MANUALLY_CLEARED)
  {
  }

  // ---------- the pass over customers ----------

  function CountActed(fs: seq<Findings>): nat {
    if fs == [] then 0 else CountActed(fs[..|fs| - 1]) + if Acted(fs[|fs| - 1]) then 1 else 0
  }

  function CountEnforced(fs: seq<Findings>): nat {
    if fs == [] then 0 else CountEnforced(fs[..|fs| - 1]) + if Enforced(fs[|fs| - 1]) then 1 else 0
  }

  lemma {:induction false} CountersAreOrdered(fs: seq<Findings>)
    ensures CountEnforced(fs) <= CountActed(fs) <= |fs|
  {
    if fs != [] { CountersAreOrdered(fs[..|fs| - 1]); }
  }

  // `adverse` is the decision in the latest adverse-media row; `reviews` counts cases of type "screening".
  datatype Profile = Profile(tier: Tier, decision: Option<string>, adverse: Option<string>, reviews: nat)

  // One customer after the pass.
  function After(p: Profile, f: Findings): Profile {
    Profile(if Enforced(f) && !f.downgradeFails then LoweredToL1(p.tier) else p.tier,
            if Recorded(f).Some? then Recorded(f) else p.decision,
            if f.profileFound && f.sanctions.Some? && AdverseRow(f.adverse) then Some(f.adverse.decision) else p.adverse,
            p.reviews + if Enforced(f) && !f.caseFails then 1 else 0)
  }

  class CustomerStore {
    var profiles: map<nat, Profile>

    // RecordScreeningResult: the recorded decision, or None on an error, which may come after the commit.
    method RecordScreeningResult(user: nat, decision: string, f: Findings) returns (recorded: Option<string>)
      requires user in profiles && f.profileFound && f.sanctions.Some? && decision == Folded(f)
      modifies this
      ensures profiles == if Recorded(f).Some? then old(profiles)[user := old(profiles)[user].(decision := Recorded(f))] else old(profiles)
      ensures recorded == if Acted(f) then Recorded(f) else None
    {
      var written := decision;
      if f.listed.None? {
        return None;
      }
      if f.listed.value {
        written := BLOCKED;
      }
      if f.recordFault == BeforeCommit || !Recordable(written) {
        return None;
      }
      profiles := profiles[user := profiles[user].(decision := Some(written))];
      if written == POSSIBLE || written == STRONG || written == BLOCKED {
        if f.recordFault == AfterCommit {
          return None;
        }
      }
      recorded := Some(written);
    }

    // The answer of the adverse-media lane, or None on an error, which may come after its row is there.
    method ScreenAdverseMedia(user: nat, a: Adverse) returns (heard: Option<string>)
      requires user in profiles
      modifies this
      ensures heard == Heard(a)
      ensures profiles == if AdverseRow(a) then old(profiles)[user := old(profiles)[user].(adverse := Some(a.decision))] else old(profiles)
    {
      match a {
        case NoScreener => return Some("");
        case ProviderDown => return None;
        case Answers(d, rowFault) =>
          if d == CLEAR {
            return Some(d);
          }
          if rowFault == BeforeCommit || d !in {POSSIBLE, STRONG, BLOCKED} {
            return None;
          }
          profiles := profiles[user := profiles[user].(adverse := Some(d))];
          if rowFault == AfterCommit {
            return None;
          }
          heard := Some(d);
      }
    }

    method DowngradeKYCTier(user: nat, fails: bool)
      requires user in profiles
      modifies this
      ensures profiles == if fails then old(profiles)
                          else old(profiles)[user := old(profiles)[user].(tier := LoweredToL1(old(profiles)[user].tier))]
    {
      if !fails && CanDowngrade(profiles[user].tier, L1) {
        profiles := profiles[user := profiles[user].(tier := L1)];
      } else {
        assert profiles[user := profiles[user]] == profiles;
      }
    }

    // The body of the loop for one customer.
    method RescreenCustomer(user: nat, f: Findings) returns (screened: bool, blocked: bool)
      requires user in profiles
      modifies this
      ensures profiles == old(profiles)[user := After(old(profiles)[user], f)]
      ensures screened == Acted(f) && blocked == Enforced(f)
    {
      screened, blocked := false, false;
      ghost var before := profiles[user];
      assert profiles[user := before] == profiles;
      if !f.profileFound || f.sanctions.None? {
        return;
      }
      var decision := f.sanctions.value;
      var heard := ScreenAdverseMedia(user, f.adverse);
      if heard.Some? {
        decision := Stricter(decision, heard.value);
      }
      var recorded := RecordScreeningResult(user, decision, f);
      if recorded.None? {
        return;
      }
      screened := true;
      if BlockedByScreening(recorded.value) {
        blocked := true;
        DowngradeKYCTier(user, f.downgradeFails);
        if !f.caseFails {
          profiles := profiles[user := profiles[user].(reviews := profiles[user].reviews + 1)];
        }
      }
    }

    /** The loop over the customers that are due. Each ends as After says of its findings, everybody else as before, and the
        counters count. */
    method RescreenCustomers(due: seq<nat>, fs: seq<Findings>) returns (screened: nat, blocked: nat)
      requires |fs| == |due| && Distinct(due) && forall i :: 0 <= i < |due| ==> due[i] in profiles
      modifies this
      ensures profiles.Keys == old(profiles.Keys)
      ensures forall i :: 0 <= i < |due| ==> profiles[due[i]] == After(old(profiles)[due[i]], fs[i])
      ensures forall user :: user in profiles && user !in due ==> profiles[user] == old(profiles)[user]
      ensures screened == CountActed(fs) && blocked == CountEnforced(fs)
      ensures blocked <= screened <= |due|
    {
      screened, blocked := 0, 0;
      for k := 0 to |due|
        invariant Progress(old(profiles), profiles, due, fs, After, k)
        invariant screened == CountActed(fs[..k]) && blocked == CountEnforced(fs[..k])
      {
        assert fs[..k + 1][..k] == fs[..k];
        ProgressStep(old(profiles), profiles, due, fs, After, k);
        hide Progress, After, Acted, Enforced;
        var acted, enforced := RescreenCustomer(due[k], fs[k]);
        if acted {
          screened := screened + 1;
        }
        if enforced {
          blocked := blocked + 1;
        }
      }
      assert fs[..|due|] == fs;
      CountersAreOrdered(fs);
    }
  }

  // The strictest verdict about a customer, the platform's own watchlist included; -1 when nobody has an opinion.
  function Strictest(f: Findings): int
    requires f.sanctions.Some? && f.listed.Some?
  {
    var adverse := if f.adverse.Answers? then Rank(f.adverse.decision) else -1;
    if f.listed.value then 3 else if Rank(f.sanctions.value) >= adverse then Rank(f.sanctions.value) else adverse
  }

  // The lower of a tier and L1 on the ladder; L4 is not on it.
  predicate AtMostL1(t: Tier) { t != L4 && Order(t) <= 1 }

  lemma {:induction false} RecordedIsTheStrictest(f: Findings)
    requires StoreWorks(f) && f.sanctions.Some?
    ensures Strictest(f) >= 0 ==> Recorded(f).Some? && Rank(Recorded(f).value) == Strictest(f)
    ensures Strictest(f) < 0 ==> Recorded(f).None? || Recorded(f).value == MANUALLY_CLEARED
  {
    if Heard(f.adverse).Some? { StricterIsTheJoin(f.sanctions.value, Heard(f.adverse).value); }
    hide Stricter;
  }

  lemma {:induction false} RankNames(decision: string)
    ensures Rank(decision) > 0 <==> Rank(decision) >= 0 && BlockedByScreening(decision)
    ensures Rank(decision) == 0 <==> decision == CLEAR
    ensures Rank(MANUALLY_CLEARED) == -1 && !BlockedByScreening(MANUALLY_CLEARED)
  {
  }

  lemma {:induction false} AfterEnforces(p: Profile, f: Findings)
    requires StoreWorks(f) && f.sanctions.Some?
    ensures var q := After(p, f);
            if Strictest(f) > 0 then
              q.decision.Some? && Rank(q.decision.value) == Strictest(f) && q.reviews == p.reviews + 1 && q.tier == LoweredToL1(p.tier)
            else
              q.tier == p.tier && q.reviews == p.reviews && (Strictest(f) == 0 ==> q.decision == Some(CLEAR))
  {
    RecordedIsTheStrictest(f);
    if Recorded(f).Some? { RankNames(Recorded(f).value); }
    hide Rank, Recorded, Strictest, BlockedByScreening, Heard, LoweredToL1;
  }

  /**
   A whole pass. Each due customer who could be screened, and for whom the store works, is recorded at the strictest
   verdict about them; a verdict stricter than clear takes a tier on the ladder to L1 or leaves it lower, and opens one
   case; any other keeps tier and cases. A due customer without a sanctions answer, and one who is not due, stay as they
   were.
   */
  lemma {:induction false} PassEnforcesTheStrictest(before: map<nat, Profile>, now: map<nat, Profile>, due: seq<nat>, fs: seq<Findings>)
    requires Progress(before, now, due, fs, After, |due|)
    ensures forall i :: 0 <= i < |due| && fs[i].sanctions.None? ==> now[due[i]] == before[due[i]]
    ensures forall i :: 0 <= i < |due| && StoreWorks(fs[i]) && fs[i].sanctions.Some? ==>
              var p, q := before[due[i]], now[due[i]];
              if Strictest(fs[i]) > 0 then
                && q.decision.Some? && Rank(q.decision.value) == Strictest(fs[i]) && q.reviews == p.reviews + 1
                && (p.tier != L4 ==> AtMostL1(q.tier) && Order(q.tier) <= Order(p.tier)) && (p.tier == L4 ==> q.tier == L4)
              else
                q.tier == p.tier && q.reviews == p.reviews && (Strictest(fs[i]) == 0 ==> q.decision == Some(CLEAR))
    ensures forall id :: id in before && id !in due ==> now[id] == before[id]
  {
    forall i | 0 <= i < |due| && StoreWorks(fs[i]) && fs[i].sanctions.Some?
      ensures var p, q := before[due[i]], now[due[i]];
              if Strictest(fs[i]) > 0 then
                && q.decision.Some? && Rank(q.decision.value) == Strictest(fs[i]) && q.reviews == p.reviews + 1
                && (p.tier != L4 ==> AtMostL1(q.tier) && Order(q.tier) <= Order(p.tier)) && (p.tier == L4 ==> q.tier == L4)
              else
                q.tier == p.tier && q.reviews == p.reviews && (Strictest(fs[i]) == 0 ==> q.decision == Some(CLEAR))
    {
      assert now[due[i]] == After(before[due[i]], fs[i]);
      AfterEnforces(before[due[i]], fs[i]);
      LoweredIsTheMinimum(before[due[i]].tier);
      hide Strictest, Rank, StoreWorks, After;
    }
    forall i | 0 <= i < |due| && fs[i].sanctions.None? ensures now[due[i]] == before[due[i]] {
      assert now[due[i]] == After(before[due[i]], fs[i]);
    }
    hide Strictest, Rank, StoreWorks;
  }

  // ---------- many passes ----------

  datatype Pass = Pass(due: seq<nat>, fs: seq<Findings>)

  // The tables between passes, each pass with its own findings and failures.
  ghost predicate History(states: seq<map<nat, Profile>>, passes: seq<Pass>) {
    && |states| == |passes| + 1
    && forall k :: 0 <= k < |passes| ==> Between(states[k], states[k + 1], passes[k])
  }

  ghost predicate Between(before: map<nat, Profile>, now: map<nat, Profile>, pass: Pass) {
    Distinct(pass.due) && Progress(before, now, pass.due, pass.fs, After, |pass.due|)
  }

  // A pass takes no case away and raises nobody, whatever fails.
  predicate NoHigher(p: Profile, q: Profile) {
    && q.reviews >= p.reviews && (q.tier == L4 <==> p.tier == L4) && Order(q.tier) <= Order(p.tier)
  }

  lemma {:induction false} PassRaisesNobody(before: map<nat, Profile>, now: map<nat, Profile>, pass: Pass, id: nat)
    requires Between(before, now, pass) && id in before
    ensures id in now && NoHigher(before[id], now[id])
  {
    if id in pass.due {
      var i :| 0 <= i < |pass.due| && pass.due[i] == id;
      assert now[id] == After(before[id], pass.fs[i]);
      LoweredIsTheMinimum(before[id].tier);
    }
    hide Recorded, Acted;
  }

  lemma {:induction false} PassesRaiseNobody(states: seq<map<nat, Profile>>, passes: seq<Pass>, k: nat, l: nat, id: nat)
    requires History(states, passes) && k <= l < |states| && id in states[k]
    ensures id in states[l] && NoHigher(states[k][id], states[l][id])
    decreases l - k
  {
    if k < l {
      assert Between(states[k], states[k + 1], passes[k]);
      PassRaisesNobody(states[k], states[k + 1], passes[k], id);
      PassesRaiseNobody(states, passes, k + 1, l, id);
    }
    hide Between;
  }

  /**
   Over any number of passes with any failures: a customer on the ladder whom some pass screens as more than clear, with
   the store working for them, is at L1 or below from then on, with at least one more case than before.
   */
  lemma {:induction false} OnceCaughtStaysLowered(states: seq<map<nat, Profile>>, passes: seq<Pass>, k: nat, i: nat, l: nat)
    requires History(states, passes) && k < |passes| && k < l < |states| && i < |passes[k].due|
    requires Between(states[k], states[k + 1], passes[k])
    requires var f := passes[k].fs[i]; StoreWorks(f) && f.sanctions.Some? && Strictest(f) > 0
    requires states[k][passes[k].due[i]].tier != L4
    ensures var id := passes[k].due[i];
            id in states[l] && AtMostL1(states[l][id].tier) && states[l][id].reviews > states[k][id].reviews
  {
    var id := passes[k].due[i];
    var p := states[k][id];
    assert states[k + 1][id] == After(p, passes[k].fs[i]);
    AfterEnforces(p, passes[k].fs[i]);
    LoweredIsTheMinimum(p.tier);
    PassesRaiseNobody(states, passes, k + 1, l, id);
    hide History, Strictest, Recorded, StoreWorks;
  }

  // ---------- the pass over businesses ----------

  datatype BusinessTier = B0 | B1 | B2 | B3

  datatype Business = Business(tier: BusinessTier, decision: Option<string>, walletFrozen: bool)

  // No sanctions answer is an outage; the KYB table takes any decision.
  datatype BusinessFindings = BusinessFindings(sanctions: Option<string>, recordFails: bool, downgradeFails: bool)

  predicate BusinessScreened(f: BusinessFindings) {
    f.sanctions.Some? && !f.recordFails
  }

  predicate BusinessBlocked(f: BusinessFindings) {
    BusinessScreened(f) && BlockedByScreening(f.sanctions.value)
  }

  // A downgrade from B0 is none, and then the wallet is not frozen either.
  function BusinessAfter(b: Business, f: BusinessFindings): Business {
    var demoted := BusinessBlocked(f) && !f.downgradeFails && b.tier != B0;
    Business(if demoted then B0 else b.tier, if BusinessScreened(f) then f.sanctions else b.decision, b.walletFrozen || demoted)
  }

  function CountScreened(fs: seq<BusinessFindings>): nat {
    if fs == [] then 0 else CountScreened(fs[..|fs| - 1]) + if BusinessScreened(fs[|fs| - 1]) then 1 else 0
  }

  function CountBlocked(fs: seq<BusinessFindings>): nat {
    if fs == [] then 0 else CountBlocked(fs[..|fs| - 1]) + if BusinessBlocked(fs[|fs| - 1]) then 1 else 0
  }

  lemma {:induction false} BusinessCountersAreOrdered(fs: seq<BusinessFindings>)
    ensures CountBlocked(fs) <= CountScreened(fs) <= |fs|
  {
    if fs != [] { BusinessCountersAreOrdered(fs[..|fs| - 1]); }
  }

  // Without failures a business screened as blocked is at B0 afterwards, frozen if it was above it; no other changes tier.
  lemma {:induction false} BlockedBusinessesAreAtB0(b: Business, f: BusinessFindings)
    requires !f.recordFails && !f.downgradeFails
    ensures BusinessBlocked(f) ==> BusinessAfter(b, f).tier == B0 && (b.tier != B0 ==> BusinessAfter(b, f).walletFrozen)
    ensures !BusinessBlocked(f) ==> BusinessAfter(b, f).tier == b.tier && BusinessAfter(b, f).walletFrozen == b.walletFrozen
    ensures BusinessBlocked(f) <==> f.sanctions.Some? && BusinessAfter(b, f).decision == f.sanctions && BlockedByScreening(f.sanctions.value)
  {
  }

  class BusinessStore {
    var businesses: map<nat, Business>

    method RescreenBusinesses(due: seq<nat>, fs: seq<BusinessFindings>) returns (screened: nat, blocked: nat)
      requires |fs| == |due| && Distinct(due) && forall i :: 0 <= i < |due| ==> due[i] in businesses
      modifies this
      ensures businesses.Keys == old(businesses.Keys)
      ensures forall i :: 0 <= i < |due| ==> businesses[due[i]] == BusinessAfter(old(businesses)[due[i]], fs[i])
      ensures forall m :: m in businesses && m !in due ==> businesses[m] == old(businesses)[m]
      ensures screened == CountScreened(fs) && blocked == CountBlocked(fs)
      ensures blocked <= screened <= |due|
    {
      screened, blocked := 0, 0;
      for k := 0 to |due|
        invariant Progress(old(businesses), businesses, due, fs, BusinessAfter, k)
        invariant screened == CountScreened(fs[..k]) && blocked == CountBlocked(fs[..k])
      {
        var merchant, f := due[k], fs[k];
        assert fs[..k + 1][..k] == fs[..k];
        ProgressStep(old(businesses), businesses, due, fs, BusinessAfter, k);
        hide Progress;
        ghost var before := businesses[merchant];
        assert businesses[merchant := before] == businesses;
        if f.sanctions.None? || f.recordFails {
          continue;
        }
        businesses := businesses[merchant := businesses[merchant].(decision := f.sanctions)];
        screened := screened + 1;
        if BlockedByScreening(f.sanctions.value) {
          blocked := blocked + 1;
          if !f.downgradeFails && businesses[merchant].tier != B0 {
            businesses := businesses[merchant := businesses[merchant].(tier := B0, walletFrozen := true)];
          }
        }
      }
      assert fs[..|due|] == fs;
      BusinessCountersAreOrdered(fs);
    }
  }
}
