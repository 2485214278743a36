/** What the numbers of the confidence engine amount to (internal/services/identity/scorer.go). */
module Confidence {
  import opened Scorer

  // ----- behavioural rules -------------------------------------------------------------------------

  /** Some behavioural rule, read on its own, gives this confidence and source. */
  predicate BehaviorOffers(s: Signals, v: real, source: Source) {
    || (v == 0.96 && source == Behavioral && s.orderAddressExact && s.nameHigh && s.sameCountry && !s.differentLastName)
    || (v == 0.95 && source == Mixed && s.orderNameHigh && s.phoneExact)
    || (v == 0.94 && source == Mixed && s.orderAddressExact && s.emailLocalExact)
    || (v == 0.91 && source == Behavioral && s.recentOrderOverlap && s.orderAddressPartial && s.nameHigh)
    || (v == 0.90 && source == Mixed && s.orderAddressPartial && s.nameHigh)
  }

  /** The behavioural cascade, too, is its best offer, with that offer's source. */
  lemma BehavioralRuleIsBestOffer(s: Signals)
    ensures match BehavioralRule(s)
            case None => forall v, source :: !BehaviorOffers(s, v, source)
            case Some((best, bestSource)) =>
              BehaviorOffers(s, best, bestSource) && forall v, source :: BehaviorOffers(s, v, source) ==> v <= best
  {
  }

  /** A pair on which a behavioural rule fires reaches 0.90 with these rules on, whatever speaks against it
      but the country. */
  lemma BehaviorReachesNinety(a: Customer, b: Customer, o: ScoreOptions)
    requires o.behavioralEnabled && ScorePair(a, b, o).sig.sameCountry && BehavioralRule(ScorePair(a, b, o).sig).Some?
    ensures 0.90 <= ScorePair(a, b, o).combined <= 0.96
  {
    hide RawSignals, MaskSignals;
  }

  // ----- objections and the fallback ---------------------------------------------------------------

  function Price(objected: bool, price: real): real {
    if objected then price else 0.0
  }

  lemma PenaltyIsSum(s: Signals)
    ensures Penalty(s) == Price(s.differentLastName, 0.15) + Price(s.differentEmailDomain, 0.05) +
                          Price(s.phoneAsymmetry, 0.05) + Price(s.orderNameConflict, 0.10) +
                          Price(s.orderAddressConflict, 0.12)
  {
  }

  /** Every objection has its price, whatever else is objected, and nothing else costs anything. */
  lemma ObjectionPrices(s: Signals)
    ensures Penalty(s) == Penalty(s.(differentLastName := false)) + Price(s.differentLastName, 0.15)
    ensures Penalty(s) == Penalty(s.(differentEmailDomain := false)) + Price(s.differentEmailDomain, 0.05)
    ensures Penalty(s) == Penalty(s.(phoneAsymmetry := false)) + Price(s.phoneAsymmetry, 0.05)
    ensures Penalty(s) == Penalty(s.(orderNameConflict := false)) + Price(s.orderNameConflict, 0.10)
    ensures Penalty(s) == Penalty(s.(orderAddressConflict := false)) + Price(s.orderAddressConflict, 0.12)
    ensures NoObjection(s) ==> Penalty(s) == 0.0
  {
    hide Penalty;
    PenaltyIsSum(s);
    PenaltyIsSum(s.(differentLastName := false));
    PenaltyIsSum(s.(differentEmailDomain := false));
    PenaltyIsSum(s.(phoneAsymmetry := false));
    PenaltyIsSum(s.(orderNameConflict := false));
    PenaltyIsSum(s.(orderAddressConflict := false));
    assert forall x :: Price(false, x) == 0.0;
    hide Price;
  }

  function Capped(x: real): real {
    if x > 0.64 then 0.64 else x
  }

  /** With a similar name more of a similarity is worth its share, 40, 30, 20 or 10 percent, and a shared note
      0.04, up to 0.64; without one nothing is. */
  lemma FallbackShares(s: Signals, n: real, a: real, e: real, p: real, dn: real, da: real, de: real, dp: real)
    requires n >= 0.0 && a >= 0.0 && e >= 0.0 && p >= 0.0
    requires dn >= 0.0 && da >= 0.0 && de >= 0.0 && dp >= 0.0
    ensures s.nameMedium || s.nameHigh ==>
              && ComputeFallback(s, n + dn, a + da, e + de, p + dp) ==
                   Capped(ComputeFallback(s, n, a, e, p) + 0.4 * dn + 0.3 * da + 0.2 * de + 0.1 * dp)
              && (!s.noteShared ==> ComputeFallback(s.(noteShared := true), n, a, e, p) ==
                                    Capped(ComputeFallback(s, n, a, e, p) + 0.04))
    ensures !s.noteShared ==> ComputeFallback(s, 0.0, 0.0, 0.0, 0.0) == 0.0
    ensures !(s.nameMedium || s.nameHigh) ==> ComputeFallback(s, n, a, e, p) == 0.0
  {
  }

  // ----- the confidences that are promised -----------------------------------------------------------

  /** No signal at all, countries compatible. */
  const NONE := Signals(
    false, false, false, false, false, false, false, false, 0.0, false, false, true, false, false, false, false,
    false, false, false, false, false, false)

  function Plain(s: Signals): (real, Source) {
    ComputeConfidence(s, 0.0, 0.0, 0.0, 0.0, false)
  }

  function WithBehavior(s: Signals): (real, Source) {
    ComputeConfidence(s, 0.0, 0.0, 0.0, 0.0, true)
  }

  /** All objections at once. */
  function Objected(s: Signals): Signals {
    s.(differentLastName := true, differentEmailDomain := true, phoneAsymmetry := true,
       orderNameConflict := true, orderAddressConflict := true)
  }

  /** The signal combinations that the repository's tests fix. */
  lemma PromisedConfidences()
    ensures Plain(NONE) == (0.0, NoSource)
    ensures Plain(Objected(NONE.(emailExact := true))) == Plain(NONE.(phoneExact := true)) == (0.98, Profile)
    ensures forall s: Signals :: !s.sameCountry ==> WithBehavior(s) == (0.0, NoSource)
    ensures var place := NONE.(orderAddressExact := true, nameHigh := true);
            && Plain(place).0 < 0.96 && WithBehavior(place) == (0.96, Behavioral)
            && WithBehavior(place.(differentLastName := true)).0 < 0.96
    ensures WithBehavior(NONE.(orderNameHigh := true, phoneExact := true)) == (0.95, Mixed)
    ensures WithBehavior(NONE.(orderAddressExact := true, emailLocalExact := true)) == (0.94, Mixed)
    ensures var near := NONE.(orderAddressPartial := true, nameHigh := true);
            WithBehavior(near) == (0.90, Mixed) && WithBehavior(near.(recentOrderOverlap := true)) == (0.91, Behavioral)
    ensures Plain(NONE.(addressExact := true, nameHigh := true)) == (0.92, Profile)
    ensures var alike := NONE.(addressPartial := true, nameHigh := true);
            && Plain(alike) == (0.76, Profile)
            && Plain(alike.(differentLastName := true)).0 == 0.61
            && Plain(alike.(orderAddressConflict := true)).0 == 0.64
            && Plain(alike.(orderNameConflict := true)).0 == 0.66
            && Plain(Objected(alike)).0 == 0.29
    ensures Plain(Objected(NONE.(nameHigh := true, emailDomainMatch := true))).0 == 0.23
  {
  }
}
