/**
 The collection fee of a merchant payment: what the customer is charged on top of the base, what the payment's metadata
 remembers of it, and what the split hook later credits to the merchant. A payment created over the partner API has that
 metadata overwritten by the request's own before the hook reads it.
 */
module CollectionFees {
  import opened Wrappers

  // One channel's parameters; a cap of zero is no cap.
  datatype Schedule = Schedule(bps: int, fixed: int, cap: int)

  // base_amount_kobo and collection_fee_kobo as decoded from the metadata; absent reads as zero.
  datatype Metadata = Metadata(base: int, fee: int)

  datatype Amounts = Amounts(fee: int, recv: int)

  // Integer division that truncates towards zero.
  function Quot(n: int, d: int): int
    requires d > 0
  {
    if n >= 0 then n / d else -(-n / d)
  }

  // The fee for an amount on a channel; a channel without parameters charges nothing.
  function CollectionFee(s: Option<Schedule>, amount: int): int {
    if amount <= 0 || s.None? then 0
    else
      var raw := Quot(amount * s.value.bps, 10_000) + s.value.fixed;
      var capped := if s.value.cap > 0 && raw > s.value.cap then s.value.cap else raw;
      if capped > amount then amount else capped
  }

  // CreateCollectionDraft: the charge and the metadata stamped on the payment.
  function DraftCharge(s: Option<Schedule>, base: int): int {
    base + CollectionFee(s, base)
  }

  function DraftMetadata(s: Option<Schedule>, base: int): Metadata {
    Metadata(base, CollectionFee(s, base))
  }

  // What apiCreatePayment stores over it: idempotency_key, redirect_url and metadata, neither of the two amounts.
  const API_METADATA := Metadata(0, 0)

  // collectionSplitAmounts, read when the payment succeeds.
  function SplitAmounts(s: Option<Schedule>, m: Metadata, amount: int): Amounts {
    if m.base > 0 && m.base + m.fee == amount then Amounts(m.fee, m.base)
    else
      var fee := CollectionFee(s, amount);
      Amounts(fee, if amount - fee < 0 then 0 else amount - fee)
  }

  predicate NonNegative(s: Option<Schedule>) {
    s.Some? ==> s.value.bps >= 0 && s.value.fixed >= 0
  }

  lemma {:induction false} ProductGrows(a: int, b: int, n: int)
    requires 0 <= a <= b && n >= 0
    ensures 0 <= a * n <= b * n
  {
  }

  lemma {:induction false} FeeGrowsWithinTheAmount(s: Option<Schedule>, a: int, b: int)
    requires NonNegative(s) && 0 <= a <= b
    ensures 0 <= CollectionFee(s, a) <= a
    ensures CollectionFee(s, a) <= CollectionFee(s, b)
  {
    if s.Some? { ProductGrows(a, b, s.value.bps); }
  }

  // The split shares out exactly the charge, and each share is non-negative, when no metadata names a negative fee.
  lemma {:induction false} SplitSharesTheCharge(s: Option<Schedule>, m: Metadata, amount: int)
    requires NonNegative(s) && amount >= 0
    ensures var r := SplitAmounts(s, m, amount); r.fee + r.recv == amount && r.recv >= 0
    ensures SplitAmounts(s, m, amount).fee >= 0 <==> !(m.base > amount && m.base + m.fee == amount)
  {
    FeeGrowsWithinTheAmount(s, amount, amount);
  }

  // With its metadata intact the merchant receives the full base and the platform the surcharge.
  lemma {:induction false} DraftPaysTheBase(s: Option<Schedule>, base: int)
    requires base > 0
    ensures SplitAmounts(s, DraftMetadata(s, base), DraftCharge(s, base)) == Amounts(CollectionFee(s, base), base)
  {
  }

  /**
   With the metadata replaced by one that does not account for the charge, the fee is taken a second time, from the
   total: the merchant never receives more than the base, and the base itself exactly when the fee of the charge is
   the fee of the base.
   */
  lemma {:induction false} OverwrittenDraftPaysAtMostTheBase(s: Option<Schedule>, base: int, m: Metadata)
    requires NonNegative(s) && base > 0
    requires !(m.base > 0 && m.base + m.fee == DraftCharge(s, base))
    ensures var recv := SplitAmounts(s, m, DraftCharge(s, base)).recv;
            && recv == base - (CollectionFee(s, DraftCharge(s, base)) - CollectionFee(s, base))
            && recv <= base
            && (recv == base <==> CollectionFee(s, DraftCharge(s, base)) == CollectionFee(s, base))
  {
    FeeGrowsWithinTheAmount(s, base, base);
    FeeGrowsWithinTheAmount(s, base, DraftCharge(s, base));
    FeeGrowsWithinTheAmount(s, DraftCharge(s, base), DraftCharge(s, base));
  }

  // XEGO_FEE_CARD_* defaults: 2% plus 100 naira, at most 3 500 naira.
  const CARD := Some(Schedule(200, 10_000, 350_000))

  // 10 000 naira over the partner API: the customer pays 10 300, the merchant is credited 9 994. The fee stops at 3 500.
  lemma {:induction false} ApiMerchantIsShort()
    ensures DraftCharge(CARD, 1_000_000) == 1_030_000
    ensures SplitAmounts(CARD, API_METADATA, 1_030_000) == Amounts(30_600, 999_400)
    ensures CollectionFee(CARD, 100_000_000) == 350_000
  {
    assert 100_000_000 * 200 / 10_000 == 2_000_000;
    assert 1_000_000 * 200 / 10_000 == 20_000;
    assert 1_030_000 * 200 / 10_000 == 20_600;
  }

  // Once the base's own fee has reached the cap, and the cap is below the base, nothing is lost.
  lemma {:induction false} CappedFeeIsNotTakenTwice(s: Schedule, base: int)
    requires NonNegative(Some(s)) && base > 0 && 0 < s.cap <= base && CollectionFee(Some(s), base) == s.cap
    ensures SplitAmounts(Some(s), API_METADATA, DraftCharge(Some(s), base)).recv == base
  {
    OverwrittenDraftPaysAtMostTheBase(Some(s), base, API_METADATA);
    FeeGrowsWithinTheAmount(Some(s), base, DraftCharge(Some(s), base));
  }

  // The whole kobo of so many basis points, dropping the fraction.
  predicate Share(part: int, amount: int, bps: int) {
    10_000 * part <= amount * bps < 10_000 * (part + 1)
  }

  /**
   The fee is the percentage and the fixed part, but never more than the cap, if there is one, nor than the amount; without
   parameters, or for nothing, it is nothing.
   */
  lemma {:induction false} FeeIsTheLeast(s: Option<Schedule>, amount: int)
    requires NonNegative(s)
    ensures s.None? || amount <= 0 ==> CollectionFee(s, amount) == 0
    ensures s.Some? && amount > 0 ==>
              exists part :: Share(part, amount, s.value.bps)
                             && var fee, raw, cap := CollectionFee(s, amount), part + s.value.fixed, s.value.cap;
                                && fee <= raw && fee <= amount && (cap > 0 ==> fee <= cap)
                                && (fee == raw || fee == amount || (cap > 0 && fee == cap))
  {
    if s.Some? && amount > 0 {
      ProductGrows(0, amount, s.value.bps);
      var part := Quot(amount * s.value.bps, 10_000);
      assert Share(part, amount, s.value.bps);
    }
  }

  // The split goes by the metadata exactly when that names a base and accounts for the whole charge.
  lemma {:induction false} SplitGoesByItsMetadata(s: Option<Schedule>, m: Metadata, amount: int)
    requires NonNegative(s) && amount >= 0
    ensures SplitAmounts(s, m, amount) ==
            if m.base > 0 && m.base + m.fee == amount then Amounts(m.fee, m.base)
            else Amounts(CollectionFee(s, amount), amount - CollectionFee(s, amount))
  {
    FeeGrowsWithinTheAmount(s, amount, amount);
  }
}
