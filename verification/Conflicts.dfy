/** Structural conflicts inside a cluster (internal/services/intelligence/breakdown.go), the pairwise
  * pass over it and the merchant's opt-outs (internal/services/identity/detector.go).
  */
module Conflicts {
  import opened Normalization
  import opened Scorer
  import opened Risk
  import Sets

  datatype ConflictItem = ConflictItem(kind: string, severity: Level, blocking: bool, resolvable: bool)

  const DIFFERENT_COUNTRIES := ConflictItem("different_countries", High, true, false)
  const DIFFERENT_LAST_NAMES := ConflictItem("different_last_names", Medium, false, true)
  const DISABLED_ACCOUNT := ConflictItem("disabled_account", High, true, false)
  const DIFFERENT_PHONE_CODES := ConflictItem("different_phone_country_codes", Medium, false, true)
  const ORDER_COUNTRY_MISMATCH := ConflictItem("order_country_mismatch", High, false, false)

  // ----- what is compared ------------------------------------------------------------------------

  function LastName(c: Customer): string {
    Lower(LastToken(c.name))
  }

  function PhoneCode(normalized: string): string {
    if normalized == "" || normalized[0] != '+' then ""
    else
      var digits := normalized[1..];
      if digits == "" then "" else "+" + digits[..if |digits| < 3 then |digits| else 3]
  }

  function PhoneCodeOf(c: Customer): string {
    PhoneCode(NormalizePhone(c.phone))
  }

  predicate IsDisabled(c: Customer) {
    EqualFold(TrimSpace(c.state), "disabled")
  }

  const RISK_TAGS := ["fraud", "chargeback", "blocked", "disputed", "high_risk"]

  predicate IsRiskTag(tag: string) {
    exists k :: 0 <= k < |RISK_TAGS| && EqualFold(TrimSpace(tag), RISK_TAGS[k])
  }

  function RiskTagItem(tag: string): ConflictItem {
    ConflictItem("risk_tag:" + Lower(tag), High, true, false)
  }

  /** Two members carry different non-empty values. */
  predicate Disagree(cs: seq<Customer>, value: Customer -> string) {
    exists i, j :: 0 <= i < j < |cs| && value(cs[i]) != "" && value(cs[j]) != "" && value(cs[i]) != value(cs[j])
  }

  /** Order addresses of the members name two different countries. */
  predicate OrderCountryMismatch(cs: seq<Customer>) {
    exists i, j, x, y :: 0 <= i <= j < |cs| &&
      x in OrderCountries(cs[i].orderAddresses) && y in OrderCountries(cs[j].orderAddresses) && x != y
  }

  predicate Anchored(a: Customer, b: Customer) {
    (a.email != "" && EqualFold(a.email, b.email)) || (a.phone != "" && a.phone == b.phone)
  }

  predicate HasExactIdentityAnchor(cs: seq<Customer>) {
    exists i, j :: 0 <= i < j < |cs| && Anchored(cs[i], cs[j])
  }

  predicate AnyDisabled(cs: seq<Customer>) {
    exists i :: 0 <= i < |cs| && IsDisabled(cs[i])
  }

  predicate CarriesRiskTag(c: Customer) {
    exists k :: 0 <= k < |c.tags| && IsRiskTag(c.tags[k])
  }

  predicate AnyRiskTag(cs: seq<Customer>) {
    exists i :: 0 <= i < |cs| && CarriesRiskTag(cs[i])
  }

  predicate UnanchoredMismatch(cs: seq<Customer>) {
    OrderCountryMismatch(cs) && !HasExactIdentityAnchor(cs)
  }

  predicate AnyHigh(cs: seq<Customer>) {
    Disagree(cs, Country) || AnyDisabled(cs) || UnanchoredMismatch(cs) || AnyRiskTag(cs)
  }

  /** The highest severity that inspecting `cs` as one cluster yields. */
  function SeverityOf(cs: seq<Customer>): Level {
    if |cs| < 2 then Absent
    else if AnyHigh(cs) then High
    else if Disagree(cs, LastName) then Medium
    else Absent
  }

  /** The phone-code conflict can never be raised: normalisation has removed the plus sign that the
      code extraction looks for. */
  lemma PhoneCodesNeverDisagree(cs: seq<Customer>)
    ensures !Disagree(cs, PhoneCodeOf)
  {
    forall c: Customer
      ensures PhoneCodeOf(c) == ""
    {
      var n := NormalizePhone(c.phone);
      if n != "" {
        assert n[0] in n;
      }
    }
  }

  // ----- unique values ---------------------------------------------------------------------------

  predicate HasValue(cs: seq<Customer>, value: Customer -> string, v: string) {
    v != "" && exists i :: 0 <= i < |cs| && value(cs[i]) == v
  }

  /** The distinct non-empty values in first-seen order. */
  function FirstSeen(cs: seq<Customer>, value: Customer -> string): seq<string> {
    if cs == [] then []
    else
      var (before, v) := (FirstSeen(cs[..|cs| - 1], value), value(cs[|cs| - 1]));
      if v == "" || v in before then before else before + [v]
  }

  method UniqueFieldValues(cs: seq<Customer>, value: Customer -> string) returns (out: seq<string>)
    ensures out == FirstSeen(cs, value)
    ensures forall v :: v in out <==> HasValue(cs, value, v)
    ensures forall x, y :: 0 <= x < y < |out| ==> out[x] != out[y]
    ensures |out| > 1 <==> Disagree(cs, value)
  {
    var seen: set<string> := {};
    out := [];
    for i := 0 to |cs|
      invariant out == FirstSeen(cs[..i], value)
      invariant forall v :: v in out <==> HasValue(cs[..i], value, v)
      invariant forall v :: v in out <==> v in seen
      invariant forall x, y :: 0 <= x < y < |out| ==> out[x] != out[y]
    {
      var v := value(cs[i]);
      OneMoreValue(cs, value, i);
      assert cs[..i + 1][..i] == cs[..i];
      if v == "" {
        continue;
      }
      if v !in seen {
        seen := seen + {v};
        out := out + [v];
      }
    }
    assert cs[..|cs|] == cs;
    TwoValuesDisagree(cs, value, out);
  }

  lemma OneMoreValue(cs: seq<Customer>, value: Customer -> string, i: nat)
    requires i < |cs|
    ensures forall v :: HasValue(cs[..i + 1], value, v) <==>
                        HasValue(cs[..i], value, v) || (v != "" && v == value(cs[i]))
  {
    assert cs[..i + 1] == cs[..i] + [cs[i]];
    forall v
      ensures HasValue(cs[..i + 1], value, v) <==> HasValue(cs[..i], value, v) || (v != "" && v == value(cs[i]))
    {
      if HasValue(cs[..i], value, v) {
        var k :| 0 <= k < i && value(cs[..i][k]) == v;
        assert cs[..i + 1][k] == cs[..i][k];
      }
      if v == value(cs[i]) {
        assert cs[..i + 1][i] == cs[i];
      }
    }
  }

  lemma TwoValuesDisagree(cs: seq<Customer>, value: Customer -> string, out: seq<string>)
    requires forall v :: v in out <==> HasValue(cs, value, v)
    requires forall x, y :: 0 <= x < y < |out| ==> out[x] != out[y]
    ensures |out| > 1 <==> Disagree(cs, value)
  {
    if |out| > 1 {
      assert out[0] in out && out[1] in out;
      var i :| 0 <= i < |cs| && value(cs[i]) == out[0];
      var j :| 0 <= j < |cs| && value(cs[j]) == out[1];
      assert i != j;
    }
    if Disagree(cs, value) {
      var i, j :| 0 <= i < j < |cs| && value(cs[i]) != "" && value(cs[j]) != "" && value(cs[i]) != value(cs[j]);
      assert HasValue(cs, value, value(cs[i])) && HasValue(cs, value, value(cs[j]));
    }
  }

  // ----- the scan --------------------------------------------------------------------------------

  /** Which items inspecting `cs` reports. */
  ghost predicate Reported(cs: seq<Customer>, it: ConflictItem) {
    ReportedField(cs, it) || ReportedTag(cs, it)
  }

  ghost predicate ReportedField(cs: seq<Customer>, it: ConflictItem) {
    || (it == DIFFERENT_COUNTRIES && Disagree(cs, Country))
    || (it == DIFFERENT_LAST_NAMES && Disagree(cs, LastName))
    || (it == DISABLED_ACCOUNT && AnyDisabled(cs))
    || (it == DIFFERENT_PHONE_CODES && Disagree(cs, PhoneCodeOf))
    || (it == ORDER_COUNTRY_MISMATCH && UnanchoredMismatch(cs))
  }

  ghost predicate ReportedTag(cs: seq<Customer>, it: ConflictItem) {
    exists i, k :: 0 <= i < |cs| && 0 <= k < |cs[i].tags| && IsRiskTag(cs[i].tags[k]) && it == RiskTagItem(cs[i].tags[k])
  }

  /** `worst` is the highest severity among `items`. */
  ghost predicate IsWorst(items: seq<ConflictItem>, worst: Level) {
    && (forall it :: it in items ==> Rank(it.severity) <= Rank(worst))
    && (worst != Absent ==> exists it :: it in items && it.severity == worst)
  }

  function OnlyIf(c: bool, it: ConflictItem): seq<ConflictItem> {
    if c then [it] else []
  }

  /** The field items in the order of the checks. */
  function FieldItems(cs: seq<Customer>): seq<ConflictItem> {
    OnlyIf(Disagree(cs, Country), DIFFERENT_COUNTRIES) +
    OnlyIf(Disagree(cs, LastName), DIFFERENT_LAST_NAMES) +
    OnlyIf(AnyDisabled(cs), DISABLED_ACCOUNT) +
    OnlyIf(Disagree(cs, PhoneCodeOf), DIFFERENT_PHONE_CODES) +
    OnlyIf(UnanchoredMismatch(cs), ORDER_COUNTRY_MISMATCH)
  }

  /** One item per risk tag, in order. */
  function ItemsOfTags(tags: seq<string>): seq<ConflictItem> {
    if tags == [] then []
    else ItemsOfTags(tags[..|tags| - 1]) + if IsRiskTag(tags[|tags| - 1]) then [RiskTagItem(tags[|tags| - 1])] else []
  }

  function TagItems(cs: seq<Customer>): seq<ConflictItem> {
    if cs == [] then [] else TagItems(cs[..|cs| - 1]) + ItemsOfTags(cs[|cs| - 1].tags)
  }

  /** Exactly the reported items, field conflicts before tags, each tag once per occurrence. */
  method DetectConflicts(cs: seq<Customer>) returns (conflicts: seq<ConflictItem>, severity: Level)
    ensures conflicts == if |cs| < 2 then [] else FieldItems(cs) + TagItems(cs)
    ensures |cs| >= 2 ==> forall it :: it in conflicts <==> Reported(cs, it)
    ensures IsWorst(conflicts, severity)
    ensures severity == SeverityOf(cs)
  {
    hide ReportedField, ReportedTag, SeverityOf, FieldItems, TagItems;
    conflicts, severity := [], Absent;
    if |cs| < 2 {
      FewMembers(cs);
      return;
    }
    conflicts, severity := CompareFields(cs);
    conflicts, severity := AddRiskTags(cs, conflicts, severity);
    FieldItemsReported(cs);
    TagItemsReported(cs);
    WorstIsSeverity(cs, conflicts, severity);
  }

  /** What the flags of a reported item say: medium ones can be resolved, high ones block, but for a mismatch
      of order countries, which does neither; a tag item names its tag. */
  lemma ReportedFlags(cs: seq<Customer>, it: ConflictItem)
    requires Reported(cs, it)
    ensures it.severity == High || it.severity == Medium
    ensures it.resolvable <==> it.severity == Medium
    ensures it.blocking <==> it.severity == High && it.kind != "order_country_mismatch"
    ensures it.kind in {"different_countries", "different_last_names", "disabled_account",
                        "different_phone_country_codes", "order_country_mismatch"} ||
            exists i, k :: 0 <= i < |cs| && 0 <= k < |cs[i].tags| && it.kind == "risk_tag:" + Lower(cs[i].tags[k])
  {
    hide Disagree, AnyDisabled, UnanchoredMismatch, IsRiskTag, Lower;
    assert "risk_tag:"[0] == 'r' && "order_country_mismatch"[0] == 'o';
    assert |"different_countries"| == 19 && |"disabled_account"| == 16 && |"order_country_mismatch"| == 22;
  }

  lemma FewMembers(cs: seq<Customer>)
    ensures |cs| < 2 ==> SeverityOf(cs) == Absent
  {
  }

  lemma FieldItemsReported(cs: seq<Customer>)
    ensures forall it :: it in FieldItems(cs) <==> ReportedField(cs, it)
  {
    hide Disagree, AnyDisabled, UnanchoredMismatch;
  }

  lemma {:induction false} ItemsOfTagsAre(tags: seq<string>, it: ConflictItem)
    ensures it in ItemsOfTags(tags) <==> exists k :: 0 <= k < |tags| && IsRiskTag(tags[k]) && it == RiskTagItem(tags[k])
  {
    hide IsRiskTag, RiskTagItem;
    if tags != [] {
      ItemsOfTagsAre(tags[..|tags| - 1], it);
    }
  }

  lemma {:induction false} TagItemsAre(cs: seq<Customer>, it: ConflictItem)
    ensures it in TagItems(cs) <==> ReportedTag(cs, it)
  {
    hide IsRiskTag, RiskTagItem, ItemsOfTags;
    if cs != [] {
      var n := |cs| - 1;
      TagItemsAre(cs[..n], it);
      ItemsOfTagsAre(cs[n].tags, it);
      ReportedTagStep(cs, it);
    }
  }

  lemma ReportedTagStep(cs: seq<Customer>, it: ConflictItem)
    requires cs != []
    ensures var n := |cs| - 1;
            ReportedTag(cs, it) <==>
              ReportedTag(cs[..n], it) ||
              exists k :: 0 <= k < |cs[n].tags| && IsRiskTag(cs[n].tags[k]) && it == RiskTagItem(cs[n].tags[k])
  {
    hide IsRiskTag, RiskTagItem;
    var n := |cs| - 1;
    if ReportedTag(cs, it) {
      var i, k :| 0 <= i < |cs| && 0 <= k < |cs[i].tags| && IsRiskTag(cs[i].tags[k]) && it == RiskTagItem(cs[i].tags[k]);
      assert i < n ==> cs[..n][i] == cs[i];
    }
    if ReportedTag(cs[..n], it) {
      var i, k :| 0 <= i < n && 0 <= k < |cs[..n][i].tags| && IsRiskTag(cs[..n][i].tags[k]) &&
                  it == RiskTagItem(cs[..n][i].tags[k]);
      assert cs[..n][i] == cs[i];
    }
  }

  lemma TagItemsReported(cs: seq<Customer>)
    ensures forall it :: it in TagItems(cs) <==> ReportedTag(cs, it)
  {
    forall it
      ensures it in TagItems(cs) <==> ReportedTag(cs, it)
    {
      TagItemsAre(cs, it);
    }
  }

  /** The checks that compare fields across members, in source order. */
  method CompareFields(cs: seq<Customer>) returns (conflicts: seq<ConflictItem>, severity: Level)
    ensures conflicts == FieldItems(cs)
    ensures IsWorst(conflicts, severity)
  {
    hide Disagree, AnyDisabled, OrderCountryMismatch, HasExactIdentityAnchor, IsWorst, FirstSeen, OnlyIf;
    NothingWorst();
    var countries := UniqueFieldValues(cs, Country);
    conflicts, severity := AddIf([], Absent, |countries| > 1, DIFFERENT_COUNTRIES);
    assert conflicts == OnlyIf(Disagree(cs, Country), DIFFERENT_COUNTRIES);
    var lastNames := UniqueFieldValues(cs, LastName);
    conflicts, severity := AddIf(conflicts, severity, |lastNames| > 1, DIFFERENT_LAST_NAMES);
    var disabled := FindDisabled(cs);
    conflicts, severity := AddIf(conflicts, severity, disabled, DISABLED_ACCOUNT);
    var phoneCodes := UniqueFieldValues(cs, PhoneCodeOf);
    conflicts, severity := AddIf(conflicts, severity, |phoneCodes| > 1, DIFFERENT_PHONE_CODES);
    var mismatch := FindOrderCountryMismatch(cs);
    var anchored := FindIdentityAnchor(cs);
    conflicts, severity := AddIf(conflicts, severity, mismatch && !anchored, ORDER_COUNTRY_MISMATCH);
  }

  lemma NothingWorst()
    ensures IsWorst([], Absent)
  {
  }

  /** The loop that stops at the first disabled account. */
  method FindDisabled(cs: seq<Customer>) returns (found: bool)
    ensures found == AnyDisabled(cs)
  {
    hide IsDisabled;
    for i := 0 to |cs|
      invariant forall k :: 0 <= k < i ==> !IsDisabled(cs[k])
    {
      if IsDisabled(cs[i]) {
        return true;
      }
    }
    return false;
  }

  /** The double loop that stops at the first two members with the same email or phone. */
  method FindIdentityAnchor(cs: seq<Customer>) returns (found: bool)
    ensures found == HasExactIdentityAnchor(cs)
  {
    hide EqualFold;
    for i := 0 to |cs|
      invariant forall x, y :: 0 <= x < i && x < y < |cs| ==> !Anchored(cs[x], cs[y])
    {
      for j := i + 1 to |cs|
        invariant forall y :: i < y < j ==> !Anchored(cs[i], cs[y])
      {
        if cs[i].email != "" && EqualFold(cs[i].email, cs[j].email) {
          return true;
        }
        if cs[i].phone != "" && cs[i].phone == cs[j].phone {
          return true;
        }
      }
    }
    return false;
  }

  /** The `add` closure: append and keep the running maximum. */
  method Add(conflicts: seq<ConflictItem>, severity: Level, it: ConflictItem)
    returns (conflicts': seq<ConflictItem>, severity': Level)
    requires IsWorst(conflicts, severity)
    ensures conflicts' == conflicts + [it]
    ensures IsWorst(conflicts', severity')
  {
    conflicts' := conflicts + [it];
    severity' := if Rank(it.severity) > Rank(severity) then it.severity else severity;
    assert it in conflicts';
    if severity' == severity && severity != Absent {
      var w :| w in conflicts && w.severity == severity;
      assert w in conflicts';
    }
  }

  /** A check that adds its item when it fires. */
  method AddIf(conflicts: seq<ConflictItem>, severity: Level, fires: bool, it: ConflictItem)
    returns (conflicts': seq<ConflictItem>, severity': Level)
    requires IsWorst(conflicts, severity)
    ensures conflicts' == conflicts + OnlyIf(fires, it)
    ensures IsWorst(conflicts', severity')
  {
    hide IsWorst;
    conflicts', severity' := conflicts, severity;
    if fires {
      conflicts', severity' := Add(conflicts, severity, it);
    }
  }

  lemma OneMoreMember(cs: seq<Customer>, i: nat)
    requires i < |cs|
    ensures TagItems(cs[..i + 1]) == TagItems(cs[..i]) + ItemsOfTags(cs[i].tags)
  {
    hide ItemsOfTags;
    assert cs[..i + 1][..i] == cs[..i];
  }

  lemma OneMoreTag(tags: seq<string>, k: nat)
    requires k < |tags|
    ensures ItemsOfTags(tags[..k + 1]) == ItemsOfTags(tags[..k]) + OnlyIf(IsRiskTag(tags[k]), RiskTagItem(tags[k]))
  {
    hide IsRiskTag, RiskTagItem;
    assert tags[..k + 1][..k] == tags[..k];
  }

  lemma NoItems()
    ensures TagItems([]) == [] && ItemsOfTags([]) == []
  {
  }

  /** The loops over members, their tags and the risk words. */
  method AddRiskTags(cs: seq<Customer>, conflicts: seq<ConflictItem>, severity: Level)
    returns (conflicts': seq<ConflictItem>, severity': Level)
    requires IsWorst(conflicts, severity)
    ensures conflicts' == conflicts + TagItems(cs)
    ensures IsWorst(conflicts', severity')
  {
    hide IsWorst, IsRiskTag, RiskTagItem, TagItems, ItemsOfTags, OnlyIf;
    conflicts', severity' := conflicts, severity;
    NoItems();
    assert cs[..0] == [];
    for i := 0 to |cs|
      invariant conflicts' == conflicts + TagItems(cs[..i])
      invariant IsWorst(conflicts', severity')
    {
      var tags := cs[i].tags;
      assert tags[..0] == [];
      for k := 0 to |tags|
        invariant conflicts' == conflicts + TagItems(cs[..i]) + ItemsOfTags(tags[..k])
        invariant IsWorst(conflicts', severity')
      {
        conflicts', severity' := AddRiskTag(tags[k], conflicts', severity');
        OneMoreTag(tags, k);
      }
      assert tags[..|tags|] == tags;
      OneMoreMember(cs, i);
    }
    assert cs[..|cs|] == cs;
  }

  /** One tag against every risk word; it equals at most one of them. */
  method AddRiskTag(tag: string, conflicts: seq<ConflictItem>, severity: Level)
    returns (conflicts': seq<ConflictItem>, severity': Level)
    requires IsWorst(conflicts, severity)
    ensures conflicts' == conflicts + OnlyIf(IsRiskTag(tag), RiskTagItem(tag))
    ensures IsWorst(conflicts', severity')
  {
    hide IsWorst, TrimSpace, RiskTagItem, Lower;
    RiskWordsDiffer();
    conflicts', severity' := conflicts, severity;
    for k := 0 to |RISK_TAGS|
      invariant IsWorst(conflicts', severity')
      invariant conflicts' == conflicts + if MatchesBefore(tag, k) then [RiskTagItem(tag)] else []
    {
      if EqualFold(TrimSpace(tag), RISK_TAGS[k]) {
        assert !MatchesBefore(tag, k);
        conflicts', severity' := Add(conflicts', severity', RiskTagItem(tag));
      }
    }
  }

  predicate MatchesBefore(tag: string, n: nat)
    requires n <= |RISK_TAGS|
  {
    exists k :: 0 <= k < n && EqualFold(TrimSpace(tag), RISK_TAGS[k])
  }

  lemma RiskWordsDiffer()
    ensures forall i, j :: 0 <= i < j < |RISK_TAGS| ==> Lower(RISK_TAGS[i]) != Lower(RISK_TAGS[j])
  {
    forall i, j | 0 <= i < j < |RISK_TAGS|
      ensures Lower(RISK_TAGS[i]) != Lower(RISK_TAGS[j])
    {
      FoldedIsFixed(RISK_TAGS[i]);
      FoldedIsFixed(RISK_TAGS[j]);
      assert RISK_TAGS[i] != RISK_TAGS[j];
    }
  }

  lemma WorstIsSeverity(cs: seq<Customer>, items: seq<ConflictItem>, severity: Level)
    requires |cs| >= 2 && (forall it :: it in items <==> Reported(cs, it)) && IsWorst(items, severity)
    ensures severity == SeverityOf(cs)
  {
    hide Disagree, OrderCountryMismatch, HasExactIdentityAnchor, IsRiskTag, AnyDisabled;
    PhoneCodesNeverDisagree(cs);
    if AnyRiskTag(cs) {
      var i :| 0 <= i < |cs| && CarriesRiskTag(cs[i]);
      var k :| 0 <= k < |cs[i].tags| && IsRiskTag(cs[i].tags[k]);
      assert Reported(cs, RiskTagItem(cs[i].tags[k]));
    }
    assert Reported(cs, DIFFERENT_COUNTRIES) <== Disagree(cs, Country);
    assert Reported(cs, DISABLED_ACCOUNT) <== AnyDisabled(cs);
    assert Reported(cs, ORDER_COUNTRY_MISMATCH) <== UnanchoredMismatch(cs);
    assert Reported(cs, DIFFERENT_LAST_NAMES) <== Disagree(cs, LastName);
    forall it | it in items
      ensures Rank(it.severity) <= Rank(SeverityOf(cs))
    {
      if ReportedTag(cs, it) {
        var i, k :| 0 <= i < |cs| && 0 <= k < |cs[i].tags| && IsRiskTag(cs[i].tags[k]) && it == RiskTagItem(cs[i].tags[k]);
        assert CarriesRiskTag(cs[i]);
      }
    }
  }

  /** The loop over decoded order addresses. */
  method FindOrderCountryMismatch(cs: seq<Customer>) returns (found: bool)
    ensures found == OrderCountryMismatch(cs)
  {
    var countries: set<string> := {};
    for i := 0 to |cs|
      invariant forall x :: x in countries <==> exists k :: 0 <= k < i && x in OrderCountries(cs[k].orderAddresses)
    {
      countries := countries + OrderCountries(cs[i].orderAddresses);
    }
    found := |countries| > 1;
    TwoCountriesMismatch(cs, countries);
  }

  lemma TwoCountriesMismatch(cs: seq<Customer>, countries: set<string>)
    requires forall x :: x in countries <==> exists k :: 0 <= k < |cs| && x in OrderCountries(cs[k].orderAddresses)
    ensures |countries| > 1 <==> OrderCountryMismatch(cs)
  {
    hide OrderCountries;
    if |countries| > 1 {
      var x, y := TwoElements(countries);
      var i :| 0 <= i < |cs| && x in OrderCountries(cs[i].orderAddresses);
      var j :| 0 <= j < |cs| && y in OrderCountries(cs[j].orderAddresses);
      assert i <= j || j <= i;
    }
    if OrderCountryMismatch(cs) {
      var i, j, x, y :| 0 <= i <= j < |cs| &&
        x in OrderCountries(cs[i].orderAddresses) && y in OrderCountries(cs[j].orderAddresses) && x != y;
      assert {x, y} <= countries;
      Sets.SubsetSize({x, y}, countries);
    }
  }

  lemma TwoElements(s: set<string>) returns (x: string, y: string)
    requires |s| > 1
    ensures x in s && y in s && x != y
  {
    x :| x in s;
    var t := s - {x};
    assert |t| > 0;
    y :| y in t;
  }

  // ----- pairwise against aggregate --------------------------------------------------------------

  function PairSeverity(cs: seq<Customer>, i: nat, j: nat): Level
    requires i < j < |cs|
  {
    SeverityOf([cs[i], cs[j]])
  }

  /** The result of looking at every two members separately. */
  ghost predicate IsPairwiseWorst(cs: seq<Customer>, worst: Level) {
    && (forall i, j :: 0 <= i < j < |cs| ==> Rank(PairSeverity(cs, i, j)) <= Rank(worst))
    && (worst != Absent ==> exists i, j :: 0 <= i < j < |cs| && PairSeverity(cs, i, j) == worst)
  }

  lemma TwoMembers(cs: seq<Customer>)
    requires |cs| == 2
    ensures IsPairwiseWorst(cs, SeverityOf(cs))
  {
    hide SeverityOf;
    assert [cs[0], cs[1]] == cs;
    assert PairSeverity(cs, 0, 1) == SeverityOf(cs);
  }

  method PairwiseConflictSeverity(cs: seq<Customer>) returns (maxSev: Level)
    ensures |cs| <= 2 ==> maxSev == SeverityOf(cs)
    ensures |cs| >= 2 ==> IsPairwiseWorst(cs, maxSev)
  {
    hide SeverityOf, PairSeverity, Reported, IsWorst, FieldItems, TagItems;
    if |cs| <= 2 {
      var _, s := DetectConflicts(cs);
      if |cs| == 2 {
        TwoMembers(cs);
      }
      return s;
    }
    maxSev := Absent;
    for i := 0 to |cs|
      invariant forall x, y :: 0 <= x < i && x < y < |cs| ==> Rank(PairSeverity(cs, x, y)) <= Rank(maxSev)
      invariant maxSev != Absent ==> exists x, y :: 0 <= x < y < |cs| && PairSeverity(cs, x, y) == maxSev
    {
      for j := i + 1 to |cs|
        invariant forall x, y :: 0 <= x < i && x < y < |cs| ==> Rank(PairSeverity(cs, x, y)) <= Rank(maxSev)
        invariant forall y :: i < y < j ==> Rank(PairSeverity(cs, i, y)) <= Rank(maxSev)
        invariant maxSev != Absent ==> exists x, y :: 0 <= x < y < |cs| && PairSeverity(cs, x, y) == maxSev
      {
        var _, s := DetectConflicts([cs[i], cs[j]]);
        PairSeverityIs(cs, i, j);
        if Rank(s) > Rank(maxSev) {
          maxSev := s;
          if maxSev == High {
            return High;
          }
        }
      }
    }
  }

  lemma PairSeverityIs(cs: seq<Customer>, i: nat, j: nat)
    requires i < j < |cs|
    ensures PairSeverity(cs, i, j) == SeverityOf([cs[i], cs[j]])
  {
  }

  /** Two members whose order countries differ and who are not themselves anchored. */
  predicate SomePairMismatch(cs: seq<Customer>) {
    exists i, j :: 0 <= i < j < |cs| && UnanchoredMismatch([cs[i], cs[j]])
  }

  lemma PairDisagrees(cs: seq<Customer>, value: Customer -> string)
    ensures Disagree(cs, value) <==> exists i, j :: 0 <= i < j < |cs| && Disagree([cs[i], cs[j]], value)
  {
    if Disagree(cs, value) {
      var i, j :| 0 <= i < j < |cs| && value(cs[i]) != "" && value(cs[j]) != "" && value(cs[i]) != value(cs[j]);
      var pair := [cs[i], cs[j]];
      assert pair[0] == cs[i] && pair[1] == cs[j];
      assert Disagree(pair, value);
    }
  }

  lemma PairOfMember(cs: seq<Customer>, i: nat) returns (x: nat, y: nat)
    requires |cs| >= 2 && i < |cs|
    ensures 0 <= x < y < |cs| && (x == i || y == i)
  {
    if i == 0 {
      x, y := 0, 1;
    } else {
      x, y := 0, i;
    }
  }

  lemma PairSeverityWithin(cs: seq<Customer>, i: nat, j: nat)
    requires i < j < |cs|
    ensures Rank(PairSeverity(cs, i, j)) > Rank(SeverityOf(cs)) ==> UnanchoredMismatch([cs[i], cs[j]])
    ensures UnanchoredMismatch([cs[i], cs[j]]) ==> PairSeverity(cs, i, j) == High
  {
    hide Disagree, UnanchoredMismatch, AnyHigh;
    PairHighWithin(cs, i, j);
    PairDisagreesWithin(cs, i, j, LastName);
    MismatchIsHigh([cs[i], cs[j]]);
  }

  lemma PairDisagreesWithin(cs: seq<Customer>, i: nat, j: nat, value: Customer -> string)
    requires i < j < |cs|
    ensures Disagree([cs[i], cs[j]], value) ==> Disagree(cs, value)
  {
  }

  lemma MismatchIsHigh(cs: seq<Customer>)
    ensures UnanchoredMismatch(cs) ==> AnyHigh(cs)
  {
  }

  lemma PairHighWithin(cs: seq<Customer>, i: nat, j: nat)
    requires i < j < |cs|
    ensures AnyHigh([cs[i], cs[j]]) ==> AnyHigh(cs) || UnanchoredMismatch([cs[i], cs[j]])
  {
    hide Disagree, UnanchoredMismatch, IsDisabled, CarriesRiskTag;
    var pair := [cs[i], cs[j]];
    PairDisagreesWithin(cs, i, j, Country);
    assert pair[0] == cs[i] && pair[1] == cs[j];
    assert AnyDisabled(pair) ==> AnyDisabled(cs);
    assert AnyRiskTag(pair) ==> AnyRiskTag(cs);
  }

  lemma HighFoundPairwise(cs: seq<Customer>) returns (i: nat, j: nat)
    requires |cs| >= 2 && AnyHigh(cs)
    ensures i < j < |cs| && AnyHigh([cs[i], cs[j]])
  {
    if Disagree(cs, Country) {
      PairDisagrees(cs, Country);
      i, j :| 0 <= i < j < |cs| && Disagree([cs[i], cs[j]], Country);
    } else if AnyDisabled(cs) {
      var m :| 0 <= m < |cs| && IsDisabled(cs[m]);
      i, j := PairOfMember(cs, m);
      var pair := [cs[i], cs[j]];
      assert pair[0] == cs[i] && pair[1] == cs[j];
      assert AnyDisabled(pair);
    } else if AnyRiskTag(cs) {
      var m :| 0 <= m < |cs| && CarriesRiskTag(cs[m]);
      i, j := PairOfMember(cs, m);
      var pair := [cs[i], cs[j]];
      assert pair[0] == cs[i] && pair[1] == cs[j];
      assert AnyRiskTag(pair);
    } else {
      i, j := MismatchFoundPairwise(cs);
    }
  }

  lemma MismatchFoundPairwise(cs: seq<Customer>) returns (i: nat, j: nat)
    requires |cs| >= 2 && UnanchoredMismatch(cs)
    ensures i < j < |cs| && UnanchoredMismatch([cs[i], cs[j]])
  {
    hide Anchored;
    var m, n, x, y :| 0 <= m <= n < |cs| &&
      x in OrderCountries(cs[m].orderAddresses) && y in OrderCountries(cs[n].orderAddresses) && x != y;
    if m < n {
      i, j := m, n;
    } else {
      i, j := PairOfMember(cs, m);
    }
    var pair := [cs[i], cs[j]];
    assert pair[0] == cs[i] && pair[1] == cs[j];
    assert OrderCountryMismatch(pair) by {
      if m < n {
        assert x in OrderCountries(pair[0].orderAddresses) && y in OrderCountries(pair[1].orderAddresses);
      } else if i == m {
        assert x in OrderCountries(pair[0].orderAddresses) && y in OrderCountries(pair[0].orderAddresses);
      } else {
        assert x in OrderCountries(pair[1].orderAddresses) && y in OrderCountries(pair[1].orderAddresses);
      }
    }
    assert !HasExactIdentityAnchor(pair);
  }

  /** Looking pairwise is at least as severe as looking at the whole cluster, and strictly more severe
      exactly when some unanchored pair has mismatching order countries that an anchor elsewhere in
      the cluster hides. */
  lemma PairwiseAgainstAggregate(cs: seq<Customer>, pairwise: Level)
    requires |cs| >= 2 && IsPairwiseWorst(cs, pairwise)
    ensures Rank(pairwise) >= Rank(SeverityOf(cs))
    ensures pairwise == SeverityOf(cs) <==> SeverityOf(cs) == High || !SomePairMismatch(cs)
  {
    hide SeverityOf, IsPairwiseWorst, SomePairMismatch;
    AggregateFoundPairwise(cs, pairwise);
    MismatchRaisesPairwise(cs, pairwise);
    OnlyMismatchExceeds(cs, pairwise);
  }

  lemma MismatchRaisesPairwise(cs: seq<Customer>, pairwise: Level)
    requires |cs| >= 2 && IsPairwiseWorst(cs, pairwise)
    ensures SomePairMismatch(cs) ==> pairwise == High
  {
    hide SeverityOf, UnanchoredMismatch, PairSeverity;
    if SomePairMismatch(cs) {
      var i, j :| 0 <= i < j < |cs| && UnanchoredMismatch([cs[i], cs[j]]);
      PairSeverityWithin(cs, i, j);
    }
  }

  lemma OnlyMismatchExceeds(cs: seq<Customer>, pairwise: Level)
    requires |cs| >= 2 && IsPairwiseWorst(cs, pairwise)
    ensures Rank(pairwise) > Rank(SeverityOf(cs)) ==> SomePairMismatch(cs)
  {
    hide SeverityOf, UnanchoredMismatch, PairSeverity;
    if pairwise != Absent {
      var i, j :| 0 <= i < j < |cs| && PairSeverity(cs, i, j) == pairwise;
      PairSeverityWithin(cs, i, j);
    }
  }

  lemma AggregateFoundPairwise(cs: seq<Customer>, pairwise: Level)
    requires |cs| >= 2 && IsPairwiseWorst(cs, pairwise)
    ensures Rank(pairwise) >= Rank(SeverityOf(cs))
  {
    hide AnyHigh, Disagree;
    if AnyHigh(cs) {
      var i, j := HighFoundPairwise(cs);
      assert PairSeverity(cs, i, j) == High;
    } else if Disagree(cs, LastName) {
      PairDisagrees(cs, LastName);
      var i, j :| 0 <= i < j < |cs| && Disagree([cs[i], cs[j]], LastName);
      assert Rank(PairSeverity(cs, i, j)) >= Rank(Medium);
    }
  }

  /** Without a shared email or phone in the cluster the two passes agree. */
  lemma UnanchoredClustersAgree(cs: seq<Customer>, pairwise: Level)
    requires |cs| >= 2 && IsPairwiseWorst(cs, pairwise) && !HasExactIdentityAnchor(cs)
    ensures pairwise == SeverityOf(cs)
  {
    PairwiseAgainstAggregate(cs, pairwise);
    if SomePairMismatch(cs) {
      var i, j :| 0 <= i < j < |cs| && UnanchoredMismatch([cs[i], cs[j]]);
      MismatchCarriesOver(cs, i, j);
    }
  }

  lemma MismatchCarriesOver(cs: seq<Customer>, i: nat, j: nat)
    requires i < j < |cs| && OrderCountryMismatch([cs[i], cs[j]])
    ensures OrderCountryMismatch(cs)
  {
    var pair := [cs[i], cs[j]];
    var m, n, x, y :| 0 <= m <= n < |pair| &&
      x in OrderCountries(pair[m].orderAddresses) && y in OrderCountries(pair[n].orderAddresses) && x != y;
    var m', n' := (if m == 0 then i else j), (if n == 0 then i else j);
    assert pair[m] == cs[m'] && pair[n] == cs[n'];
  }

  // ----- merchant opt-outs -------------------------------------------------------------------------

  predicate OptedOut(it: ConflictItem, blockDisabledAccounts: bool, blockFraudTags: bool, blockDifferentCountry: bool) {
    || (it.kind == "disabled_account" && !blockDisabledAccounts)
    || ("risk_tag:" <= it.kind && !blockFraudTags)
    || (it.kind == "different_countries" && !blockDifferentCountry)
  }

  method AdjustedConflictSeverity(
    conflicts: seq<ConflictItem>, blockDisabledAccounts: bool, blockFraudTags: bool, blockDifferentCountry: bool)
    returns (max: Level)
    ensures forall it :: it in conflicts && !OptedOut(it, blockDisabledAccounts, blockFraudTags, blockDifferentCountry) ==>
                         Rank(it.severity) <= Rank(max)
    ensures max != Absent ==>
              exists it :: it in conflicts && it.severity == max &&
                           !OptedOut(it, blockDisabledAccounts, blockFraudTags, blockDifferentCountry)
  {
    hide OptedOut;
    max := Absent;
    for i := 0 to |conflicts|
      invariant forall k :: 0 <= k < i && !OptedOut(conflicts[k], blockDisabledAccounts, blockFraudTags, blockDifferentCountry) ==>
                            Rank(conflicts[k].severity) <= Rank(max)
      invariant max != Absent ==>
                exists k :: 0 <= k < i && conflicts[k].severity == max &&
                            !OptedOut(conflicts[k], blockDisabledAccounts, blockFraudTags, blockDifferentCountry)
    {
      if OptedOut(conflicts[i], blockDisabledAccounts, blockFraudTags, blockDifferentCountry) {
        continue;
      }
      if Rank(conflicts[i].severity) > Rank(max) {
        max := conflicts[i].severity;
      }
    }
  }
}
