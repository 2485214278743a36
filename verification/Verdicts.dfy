/** From the members of a cluster to its verdict (internal/services/identity/detector.go).
  *
  * Anchor, business risk and impact are inputs.
  */
module Verdicts {
  import opened Normalization
  import opened Scorer
  import opened SignalMeaning
  import opened Clustering
  import opened Conflicts
  import opened Risk

  /** What the merchant has switched on. */
  datatype Guards = Guards(
    disabledAccounts: bool, fraudTags: bool, differentCountry: bool, weakLinks: bool, anchors: bool)

  // ----- what blocks a cluster, read off its members -------------------------------------------------

  predicate TwoCountries(cs: seq<Customer>) {
    exists i, j :: 0 <= i < j < |cs| && DifferentCountries(cs[i], cs[j])
  }

  predicate HasDisabled(cs: seq<Customer>) {
    exists i :: 0 <= i < |cs| && Lower(TrimSpace(cs[i].state)) == "disabled"
  }

  predicate HasRiskTag(cs: seq<Customer>) {
    exists i, k :: 0 <= i < |cs| && 0 <= k < |cs[i].tags| &&
      Lower(TrimSpace(cs[i].tags[k])) in {"fraud", "chargeback", "blocked", "disputed", "high_risk"}
  }

  predicate OrdersNameCountry(c: Customer, country: string) {
    country != "" && exists k :: 0 <= k < |c.orderAddresses| && Lower(c.orderAddresses[k].country) == country
  }

  ghost predicate OrdersInTwoCountries(cs: seq<Customer>) {
    exists i, j, x, y ::
      0 <= i < |cs| && 0 <= j < |cs| && x != y && OrdersNameCountry(cs[i], x) && OrdersNameCountry(cs[j], y)
  }

  /** Two members with the same email, but for case, or the same phone. */
  predicate SharesEmailOrPhone(cs: seq<Customer>) {
    exists i, j :: 0 <= i < j < |cs| &&
      ((cs[i].email != "" && Lower(cs[i].email) == Lower(cs[j].email)) ||
       (cs[i].phone != "" && cs[i].phone == cs[j].phone))
  }

  /** A conflict that the merchant lets block; orders to two countries without a shared email or phone
      always do. */
  ghost predicate Blocked(cs: seq<Customer>, g: Guards) {
    && |cs| >= 2
    && (|| (g.differentCountry && TwoCountries(cs))
        || (g.disabledAccounts && HasDisabled(cs))
        || (g.fraudTags && HasRiskTag(cs))
        || (OrdersInTwoCountries(cs) && !SharesEmailOrPhone(cs)))
  }

  predicate TwoLastNames(cs: seq<Customer>) {
    exists i, j :: 0 <= i < j < |cs| && LastToken(cs[i].name) != "" && LastToken(cs[j].name) != "" &&
      Lower(LastToken(cs[i].name)) != Lower(LastToken(cs[j].name))
  }

  lemma FieldsBlock(cs: seq<Customer>)
    ensures Disagree(cs, Country) <==> TwoCountries(cs)
    ensures AnyDisabled(cs) <==> HasDisabled(cs)
    ensures Disagree(cs, LastName) <==> TwoLastNames(cs)
  {
    hide TrimSpace, LastToken;
    FoldedIsFixed("disabled");
    forall c: Customer
      ensures Country(c) == Entry(c, "country")
      ensures IsDisabled(c) <==> Lower(TrimSpace(c.state)) == "disabled"
      ensures LastName(c) == Lower(LastToken(c.name))
    {
    }
    hide Lower, Entry, Country, IsDisabled, LastName;
  }

  lemma TagsBlock(cs: seq<Customer>)
    ensures AnyRiskTag(cs) <==> HasRiskTag(cs)
  {
    hide TrimSpace;
    forall tag: string
      ensures IsRiskTag(tag) <==> Lower(TrimSpace(tag)) in {"fraud", "chargeback", "blocked", "disputed", "high_risk"}
    {
      RiskWords(Lower(TrimSpace(tag)));
    }
    hide IsRiskTag, Lower;
  }

  lemma RiskWords(word: string)
    ensures (exists k :: 0 <= k < |RISK_TAGS| && word == Lower(RISK_TAGS[k])) <==>
            word in {"fraud", "chargeback", "blocked", "disputed", "high_risk"}
  {
    FoldedIsFixed("fraud");
    FoldedIsFixed("chargeback");
    FoldedIsFixed("blocked");
    FoldedIsFixed("disputed");
    FoldedIsFixed("high_risk");
    hide Lower;
    assert RISK_TAGS[0] == "fraud" && RISK_TAGS[1] == "chargeback" && RISK_TAGS[2] == "blocked";
    assert RISK_TAGS[3] == "disputed" && RISK_TAGS[4] == "high_risk";
  }

  lemma OrdersBlock(cs: seq<Customer>)
    ensures OrderCountryMismatch(cs) <==> OrdersInTwoCountries(cs)
    ensures HasExactIdentityAnchor(cs) <==> SharesEmailOrPhone(cs)
  {
    forall c: Customer, x
      ensures x in OrderCountries(c.orderAddresses) <==> OrdersNameCountry(c, x)
    {
      CountriesOfOrders(c, x);
    }
    hide OrderCountries, OrdersNameCountry, Lower;
  }

  lemma CountriesOfOrders(c: Customer, x: string)
    ensures x in OrderCountries(c.orderAddresses) <==> OrdersNameCountry(c, x)
  {
    forall s: string
      ensures Lower(s) == "" <==> s == ""
    {
    }
    hide Lower;
  }

  // ----- the severity that counts --------------------------------------------------------------------

  predicate Out(it: ConflictItem, g: Guards) {
    OptedOut(it, g.disabledAccounts, g.fraudTags, g.differentCountry)
  }

  ghost predicate Remains(cs: seq<Customer>, g: Guards, it: ConflictItem) {
    |cs| >= 2 && Reported(cs, it) && !Out(it, g)
  }

  ghost predicate IsRemainingWorst(cs: seq<Customer>, g: Guards, worst: Level) {
    && (forall it :: Remains(cs, g, it) ==> Rank(it.severity) <= Rank(worst))
    && (worst != Absent ==> exists it :: Remains(cs, g, it) && it.severity == worst)
  }

  /** After the opt-outs the severity is high exactly when something still blocks, and otherwise medium
      exactly when two last names differ. */
  lemma RemainingSeverity(cs: seq<Customer>, g: Guards, worst: Level)
    requires IsRemainingWorst(cs, g, worst)
    ensures worst == if Blocked(cs, g) then High else if TwoLastNames(cs) then Medium else Absent
  {
    FieldsBlock(cs);
    TagsBlock(cs);
    OrdersBlock(cs);
    hide TwoCountries, HasDisabled, HasRiskTag, OrdersInTwoCountries, SharesEmailOrPhone, TwoLastNames, Disagree;
    hide AnyDisabled, AnyRiskTag, OrderCountryMismatch, HasExactIdentityAnchor;
    PhoneCodesNeverDisagree(cs);
    FieldOptOuts(g);
    NoFieldIsTag(cs);
    hide Out, ReportedTag;
    if |cs| < 2 {
      assert !TwoLastNames(cs) by {
        OneName(cs);
      }
      return;
    }
    assert Remains(cs, g, DIFFERENT_COUNTRIES) <==> g.differentCountry && TwoCountries(cs);
    assert Remains(cs, g, DISABLED_ACCOUNT) <==> g.disabledAccounts && HasDisabled(cs);
    assert Remains(cs, g, ORDER_COUNTRY_MISMATCH) <==> OrdersInTwoCountries(cs) && !SharesEmailOrPhone(cs);
    assert Remains(cs, g, DIFFERENT_LAST_NAMES) <==> TwoLastNames(cs);
    TagsRemain(cs, g);
  }

  lemma OneName(cs: seq<Customer>)
    ensures |cs| < 2 ==> !TwoLastNames(cs)
  {
  }

  /** Which field items the opt-outs concern. */
  lemma FieldOptOuts(g: Guards)
    ensures Out(DIFFERENT_COUNTRIES, g) <==> !g.differentCountry
    ensures Out(DISABLED_ACCOUNT, g) <==> !g.disabledAccounts
    ensures !Out(DIFFERENT_LAST_NAMES, g) && !Out(ORDER_COUNTRY_MISMATCH, g)
    ensures |DIFFERENT_COUNTRIES.kind| == 19 && |DISABLED_ACCOUNT.kind| == 16 && |DIFFERENT_LAST_NAMES.kind| == 20
    ensures |ORDER_COUNTRY_MISMATCH.kind| == 22 && |DIFFERENT_PHONE_CODES.kind| == 29
  {
    NoTagPrefix("different_countries");
    NoTagPrefix("disabled_account");
    NoTagPrefix("different_last_names");
    NoTagPrefix("order_country_mismatch");
    assert |"different_countries"| == 19 && |"disabled_account"| == 16;
  }

  lemma NoTagPrefix(kind: string)
    requires kind != "" && kind[0] != 'r'
    ensures !("risk_tag:" <= kind)
  {
    assert "risk_tag:"[0] == 'r';
  }

  lemma NoFieldIsTag(cs: seq<Customer>)
    ensures !ReportedTag(cs, DIFFERENT_COUNTRIES) && !ReportedTag(cs, DISABLED_ACCOUNT)
    ensures !ReportedTag(cs, ORDER_COUNTRY_MISMATCH) && !ReportedTag(cs, DIFFERENT_LAST_NAMES)
    ensures forall it :: ReportedTag(cs, it) ==> it.severity == High
  {
    hide IsRiskTag;
    forall tag: string
      ensures RiskTagItem(tag).kind[0] == 'r'
    {
    }
    assert DIFFERENT_COUNTRIES.kind[0] == DISABLED_ACCOUNT.kind[0] == DIFFERENT_LAST_NAMES.kind[0] == 'd';
    assert ORDER_COUNTRY_MISMATCH.kind[0] == 'o';
    hide RiskTagItem;
  }

  lemma TagsRemain(cs: seq<Customer>, g: Guards)
    ensures |cs| >= 2 && g.fraudTags && AnyRiskTag(cs) ==> exists it :: Remains(cs, g, it) && it.severity == High
    ensures forall it :: Remains(cs, g, it) && ReportedTag(cs, it) ==> g.fraudTags && AnyRiskTag(cs)
  {
    hide IsRiskTag;
    if |cs| >= 2 && g.fraudTags && AnyRiskTag(cs) {
      var i :| 0 <= i < |cs| && CarriesRiskTag(cs[i]);
      var k :| 0 <= k < |cs[i].tags| && IsRiskTag(cs[i].tags[k]);
      var it := RiskTagItem(cs[i].tags[k]);
      assert ReportedTag(cs, it);
      assert it.kind[0] == 'r' && "risk_tag:" <= it.kind;
      assert "disabled_account"[0] == 'd' && "different_countries"[0] == 'd';
    }
    forall it | Remains(cs, g, it) && ReportedTag(cs, it)
      ensures g.fraudTags && AnyRiskTag(cs)
    {
      var i, k :| 0 <= i < |cs| && 0 <= k < |cs[i].tags| && IsRiskTag(cs[i].tags[k]) && it == RiskTagItem(cs[i].tags[k]);
      assert CarriesRiskTag(cs[i]) && "risk_tag:" <= it.kind;
    }
  }

  // ----- the verdict -----------------------------------------------------------------------------------

  /** Conflicts, weakest edge, density and confidence of one cluster, then the verdict. */
  method ClassifyCluster(
    pairs: seq<ScoredPair>, memberIDs: seq<int>, members: seq<Customer>, g: Guards,
    hasAnchor: bool, businessRisk: Level, impactScore: real)
    returns (verdict: Verdict, maxScore: real)
    ensures exists top :: IsTop(pairs, Members(memberIDs), top) &&
                          maxScore == if top.Some? then top.value.score.combined else 0.0
    ensures Blocked(members, g) || maxScore < 0.75 ==> verdict == Risky
    ensures maxScore >= 0.90 && verdict == Risky ==> Blocked(members, g)
    ensures TwoLastNames(members) || businessRisk == High ==>
              verdict == if maxScore < 0.90 || Blocked(members, g) then Risky else Review
    ensures verdict == Safe <==>
              && maxScore >= 0.90 && !Blocked(members, g) && !TwoLastNames(members)
              && Rank(businessRisk) <= 1 && impactScore < 1000.0
              && (g.weakLinks && |memberIDs| >= 2 ==>
                    forall p :: p in pairs && InsideCluster(p, Members(memberIDs)) ==> p.score.combined >= 0.70)
              && Density(pairs, memberIDs) >= 0.60
              && (g.anchors ==> hasAnchor)
  {
    hide IsTop, Blocked, TwoLastNames, ReportedField, ReportedTag, OptedOut, SeverityOf, FieldItems, TagItems, Density;
    var top := TopPairForCluster(pairs, memberIDs);
    maxScore := if top.Some? then top.value.score.combined else 0.0;
    var weakest := WeakestClusterEdge(pairs, memberIDs);
    var conflicts, _ := DetectConflicts(members);
    var density := ClusterDensity(pairs, memberIDs);
    var severity := AdjustedConflictSeverity(conflicts, g.disabledAccounts, g.fraudTags, g.differentCountry);
    assert IsRemainingWorst(members, g, severity);
    RemainingSeverity(members, g, severity);
    hide IsRemainingWorst, Reported;
    var r := RiskInput(maxScore, severity, weakest, density, hasAnchor, businessRisk, impactScore, g.weakLinks, g.anchors);
    verdict := ClassifyRisk(r);
    SafeIff(r);
    RiskyIff(r);
    hide ClassifyRisk;
  }
}
