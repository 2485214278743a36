/** Pairwise scoring: signals, rule table, fallback and penalties (internal/services/identity/scorer.go).
  *
  * Scores are exact reals.  JSON columns are taken as decoded.
  */
module Scorer {
  import opened Text
  import opened Normalization
  import Levenshtein
  import Jaro

  // ----- customers -------------------------------------------------------------------------------

  datatype Option<+T> = None | Some(value: T)

  /** The address column: absent, not an object of strings, or an object of strings. */
  datatype AddressColumn = NoAddress | Undecodable(raw: string) | Decoded(fields: map<string, string>)

  datatype OrderAddress = OrderAddress(address1: string, city: string, zip: string, country: string)

  /** A customer_cache row, as far as identity reads it.  Times are in nanoseconds. */
  datatype Customer = Customer(
    id: int,
    email: string,
    name: string,
    phone: string,
    address: AddressColumn,
    tags: seq<string>,
    note: string,
    state: string,
    lastOrderAt: Option<int>,
    orderAddresses: seq<OrderAddress>,
    orderNames: seq<string>)

  datatype ScoreOptions = ScoreOptions(
    behavioralEnabled: bool,
    signalEmail: bool,
    signalPhone: bool,
    signalAddress: bool,
    signalName: bool)

  datatype Signals = Signals(
    emailExact: bool,
    emailLocalExact: bool,
    emailLocalFuzzy: bool,
    emailDomainMatch: bool,
    phoneExact: bool,
    phoneSuffix: bool,
    nameHigh: bool,
    nameMedium: bool,
    nameSim: real,
    addressExact: bool,
    addressPartial: bool,
    sameCountry: bool,
    orderAddressExact: bool,
    orderAddressPartial: bool,
    orderNameHigh: bool,
    recentOrderOverlap: bool,
    differentLastName: bool,
    differentEmailDomain: bool,
    phoneAsymmetry: bool,
    orderNameConflict: bool,
    orderAddressConflict: bool,
    noteShared: bool)

  datatype Source = NoSource | Behavioral | Profile | Mixed

  datatype Score = Score(
    emailSim: real,
    nameSim: real,
    phoneSim: real,
    addressSim: real,
    combined: real,
    source: Source,
    sig: Signals)

  // ----- field comparisons -----------------------------------------------------------------------

  function NameSimilarity(a: string, b: string): real {
    Jaro.JaroWinkler(Utf8Bytes(a), Utf8Bytes(b))
  }

  /** `strings.SplitN(e, "@", 2)`, when it has two parts. */
  function SplitEmail(e: string): Option<(string, string)> {
    var at := FirstIndex(e, '@');
    if at == |e| then None else Some((e[..at], e[at + 1..]))
  }

  function EmailSimilarity(a: string, b: string): real {
    if a == "" || b == "" then 0.0
    else if a == b then 1.0
    else
      match (SplitEmail(a), SplitEmail(b))
      case (Some((localA, domainA)), Some((localB, domainB))) =>
        var localSim := Levenshtein.Similarity(localA, localB);
        if domainA == domainB then 0.8 * localSim
        else if localSim >= 0.99 then 0.35
        else if localSim >= 0.92 then 0.25
        else if localSim >= 0.75 then 0.15
        else 0.0
      case _ => Levenshtein.Similarity(a, b)
  }

  predicate HasSuffix(s: string, t: string) {
    |t| <= |s| && s[|s| - |t|..] == t
  }

  predicate PhonesNested(a: string, b: string) {
    HasSuffix(a, b) || HasSuffix(b, a)
  }

  function PhoneSimilarity(a: string, b: string): real {
    if a == "" || b == "" then 0.0
    else if a == b then 1.0
    else if PhonesNested(a, b) then 0.8
    else 0.0
  }

  function Field(fields: map<string, string>, key: string): string {
    if key in fields then Lower(TrimSpace(fields[key])) else ""
  }

  function ExtractAddress(c: Customer): string {
    match c.address
    case NoAddress => ""
    case Undecodable(raw) => Lower(TrimSpace(raw))
    case Decoded(m) =>
      var (a1, city, zip) := (Field(m, "address1"), Field(m, "city"), Field(m, "zip"));
      if a1 == "" && city == "" && zip == "" then ""
      else a1 + "|" + city + "|" + zip + "|" + Field(m, "province") + "|" + Field(m, "country")
  }

  function Country(c: Customer): string {
    if c.address.Decoded? then Field(c.address.fields, "country") else ""
  }

  function AddressSimilarity(a: Customer, b: Customer): real {
    var addrA, addrB := ExtractAddress(a), ExtractAddress(b);
    if addrA == "" || addrB == "" then 0.0
    else if addrA == addrB then 1.0
    else Levenshtein.Similarity(addrA, addrB)
  }

  // ----- order history ---------------------------------------------------------------------------

  predicate EqualFold(s: string, t: string) {
    Lower(s) == Lower(t)
  }

  predicate SameOrderPlace(a: OrderAddress, b: OrderAddress) {
    EqualFold(a.city, b.city) && EqualFold(a.zip, b.zip) && EqualFold(a.country, b.country)
  }

  function OrderAddressLine(a: OrderAddress): string {
    Lower(a.address1 + " " + a.city + " " + a.zip + " " + a.country)
  }

  predicate SimilarOrderPlace(a: OrderAddress, b: OrderAddress) {
    Levenshtein.Similarity(OrderAddressLine(a), OrderAddressLine(b)) >= 0.85
  }

  predicate AnyExactOrderAddressMatch(xs: seq<OrderAddress>, ys: seq<OrderAddress>) {
    exists x, y :: x in xs && y in ys && SameOrderPlace(x, y)
  }

  predicate AnyPartialOrderAddressMatch(xs: seq<OrderAddress>, ys: seq<OrderAddress>) {
    exists x, y :: x in xs && y in ys && SimilarOrderPlace(x, y)
  }

  function OrderNameSimilarity(x: string, y: string): real {
    NameSimilarity(Lower(x), Lower(y))
  }

  predicate AnyHighOrderNameMatch(xs: seq<string>, ys: seq<string>) {
    exists x, y :: x in xs && y in ys && OrderNameSimilarity(x, y) >= 0.92
  }

  predicate AnyConflictingOrderNames(xs: seq<string>, ys: seq<string>) {
    exists x, y :: x in xs && y in ys && OrderNameSimilarity(x, y) <= 0.70
  }

  /** The countries named by order addresses, letter case folded. */
  function OrderCountries(xs: seq<OrderAddress>): set<string> {
    set x | x in xs && x.country != "" :: Lower(x.country)
  }

  /** Some country on the right that is unknown on the left; not symmetric. */
  predicate AnyConflictingOrderCountries(xs: seq<OrderAddress>, ys: seq<OrderAddress>) {
    OrderCountries(xs) != {} && !(OrderCountries(ys) <= OrderCountries(xs))
  }

  const SEVEN_DAYS := 7 * 24 * 3600 * 1_000_000_000

  predicate RecentOverlap(a: Option<int>, b: Option<int>) {
    a.Some? && b.Some? && -SEVEN_DAYS <= a.value - b.value <= SEVEN_DAYS
  }

  predicate SharedNote(a: string, b: string) {
    var noteA, noteB := Lower(TrimSpace(a)), Lower(TrimSpace(b));
    noteA != "" && noteB != "" && ByteLength(noteA) >= 10 && noteA == noteB
  }

  // ----- signals ---------------------------------------------------------------------------------

  datatype EmailSignals = EmailSignals(exact: bool, localExact: bool, localFuzzy: bool, domainMatch: bool)

  function CompareEmails(a: string, b: string): EmailSignals {
    if a == "" || b == "" then EmailSignals(false, false, false, false)
    else if a == b then EmailSignals(true, false, false, false)
    else
      match (SplitEmail(a), SplitEmail(b))
      case (Some((localA, domainA)), Some((localB, domainB))) =>
        var localSim := Levenshtein.Similarity(localA, localB);
        if domainA == domainB then EmailSignals(false, false, false, true)
        else EmailSignals(false, localSim >= 0.99, 0.92 <= localSim < 0.99, false)
      case _ => EmailSignals(false, false, false, false)
  }

  function ExtractSignals(
    emailA: string, emailB: string, phoneA: string, phoneB: string, nameA: string, nameB: string,
    nameSim: real, addrSim: real, a: Customer, b: Customer): Signals
  {
    var e := CompareEmails(emailA, emailB);
    var lastA, lastB := LastToken(nameA), LastToken(nameB);
    var bothPlaces := |a.orderAddresses| > 0 && |b.orderAddresses| > 0;
    var bothNames := |a.orderNames| > 0 && |b.orderNames| > 0;
    Signals(
      emailExact := e.exact,
      emailLocalExact := e.localExact,
      emailLocalFuzzy := e.localFuzzy,
      emailDomainMatch := e.domainMatch,
      phoneExact := phoneA != "" && phoneB != "" && phoneA == phoneB,
      phoneSuffix := phoneA != "" && phoneB != "" && phoneA != phoneB && PhonesNested(phoneA, phoneB),
      nameHigh := nameSim >= 0.90,
      nameMedium := nameSim >= 0.82,
      nameSim := nameSim,
      addressExact := addrSim >= 0.99,
      addressPartial := addrSim >= 0.65,
      sameCountry := Country(a) == "" || Country(b) == "" || Country(a) == Country(b),
      orderAddressExact := bothPlaces && AnyExactOrderAddressMatch(a.orderAddresses, b.orderAddresses),
      orderAddressPartial := bothPlaces && AnyPartialOrderAddressMatch(a.orderAddresses, b.orderAddresses),
      orderNameHigh := bothNames && AnyHighOrderNameMatch(a.orderNames, b.orderNames),
      recentOrderOverlap := RecentOverlap(a.lastOrderAt, b.lastOrderAt),
      differentLastName := lastA != "" && lastB != "" && lastA != lastB,
      differentEmailDomain := emailA != "" && emailB != "" && e == EmailSignals(false, false, false, false),
      phoneAsymmetry := (phoneA == "") != (phoneB == ""),
      orderNameConflict := bothNames && AnyConflictingOrderNames(a.orderNames, b.orderNames),
      orderAddressConflict := bothPlaces && AnyConflictingOrderCountries(a.orderAddresses, b.orderAddresses),
      noteShared := SharedNote(a.note, b.note))
  }

  // ----- confidence --------------------------------------------------------------------------------

  function ComputeBaseRules(s: Signals): real {
    if s.emailExact then 0.98
    else if s.phoneExact then 0.98
    else if s.addressExact && s.nameHigh then 0.92
    else if s.phoneSuffix && s.nameHigh then 0.90
    else if s.emailLocalExact && s.nameHigh then 0.88
    else if s.addressExact && s.nameMedium then 0.85
    else if s.phoneSuffix && s.nameMedium then 0.82
    else if s.emailLocalExact && s.nameMedium then 0.80
    else if s.emailLocalFuzzy && s.nameHigh then 0.80
    else if s.nameHigh && s.addressPartial then 0.76
    else if s.emailLocalFuzzy && s.nameMedium then 0.74
    else if s.nameHigh && s.emailDomainMatch then 0.70
    else if s.nameMedium && s.addressExact then 0.65
    else 0.0
  }

  function ComputeFallback(s: Signals, nameSim: real, addrSim: real, emailSim: real, phoneSim: real): real {
    if !s.nameMedium && !s.nameHigh then 0.0
    else
      var score := 0.4 * nameSim + 0.3 * addrSim + 0.2 * emailSim + 0.1 * phoneSim + if s.noteShared then 0.04 else 0.0;
      if score > 0.64 then 0.64 else if score < 0.0 then 0.0 else score
  }

  function Penalty(s: Signals): real {
    (if s.differentLastName then 0.15 else 0.0) +
    (if s.differentEmailDomain then 0.05 else 0.0) +
    (if s.phoneAsymmetry then 0.05 else 0.0) +
    (if s.orderNameConflict then 0.10 else 0.0) +
    (if s.orderAddressConflict then 0.12 else 0.0)
  }

  function BehavioralRule(s: Signals): Option<(real, Source)> {
    if s.orderAddressExact && s.nameHigh && s.sameCountry && !s.differentLastName then Some((0.96, Behavioral))
    else if s.orderNameHigh && s.phoneExact then Some((0.95, Mixed))
    else if s.orderAddressExact && s.emailLocalExact then Some((0.94, Mixed))
    else if s.recentOrderOverlap && s.orderAddressPartial && s.nameHigh then Some((0.91, Behavioral))
    else if s.orderAddressPartial && s.nameHigh then Some((0.90, Mixed))
    else None
  }

  function ProfileBase(s: Signals, emailSim: real, nameSim: real, phoneSim: real, addrSim: real): real {
    var rule := ComputeBaseRules(s);
    if rule == 0.0 then ComputeFallback(s, nameSim, addrSim, emailSim, phoneSim) else rule
  }

  function ProfileConfidence(base: real, penalty: real): (real, Source) {
    if base == 0.0 then (0.0, NoSource)
    else if base >= 0.97 then (base, Profile)
    else if base - penalty < 0.0 then (0.0, NoSource)
    else (base - penalty, Profile)
  }

  function ComputeConfidence(
    s: Signals, emailSim: real, nameSim: real, phoneSim: real, addrSim: real, behavioralEnabled: bool): (real, Source)
  {
    if !s.sameCountry then (0.0, NoSource)
    else
      match (if behavioralEnabled then BehavioralRule(s) else None)
      case Some(r) => r
      case None => ProfileConfidence(ProfileBase(s, emailSim, nameSim, phoneSim, addrSim), Penalty(s))
  }

  /** The merchant's channel switches. */
  function MaskSignals(s: Signals, o: ScoreOptions): Signals {
    Signals(
      emailExact := s.emailExact && o.signalEmail,
      emailLocalExact := s.emailLocalExact && o.signalEmail,
      emailLocalFuzzy := s.emailLocalFuzzy && o.signalEmail,
      emailDomainMatch := s.emailDomainMatch && o.signalEmail,
      phoneExact := s.phoneExact && o.signalPhone,
      phoneSuffix := s.phoneSuffix && o.signalPhone,
      nameHigh := s.nameHigh && o.signalName,
      nameMedium := s.nameMedium && o.signalName,
      nameSim := if o.signalName then s.nameSim else 0.0,
      addressExact := s.addressExact && o.signalAddress,
      addressPartial := s.addressPartial && o.signalAddress,
      sameCountry := s.sameCountry,
      orderAddressExact := s.orderAddressExact && o.signalAddress,
      orderAddressPartial := s.orderAddressPartial && o.signalAddress,
      orderNameHigh := s.orderNameHigh && o.signalName,
      recentOrderOverlap := s.recentOrderOverlap,
      differentLastName := s.differentLastName && o.signalName,
      differentEmailDomain := s.differentEmailDomain && o.signalEmail,
      phoneAsymmetry := s.phoneAsymmetry && o.signalPhone,
      orderNameConflict := s.orderNameConflict && o.signalName,
      orderAddressConflict := s.orderAddressConflict && o.signalAddress,
      noteShared := s.noteShared)
  }

  function RawSignals(a: Customer, b: Customer): Signals {
    var emailA, emailB := NormalizeEmail(a.email), NormalizeEmail(b.email);
    var phoneA, phoneB := NormalizePhone(a.phone), NormalizePhone(b.phone);
    var nameA, nameB := NormalizeName(a.name), NormalizeName(b.name);
    ExtractSignals(emailA, emailB, phoneA, phoneB, nameA, nameB,
                   NameSimilarity(nameA, nameB), AddressSimilarity(a, b), a, b)
  }

  function ScorePair(a: Customer, b: Customer, o: ScoreOptions): Score {
    Assemble(
      if o.signalEmail then EmailSimilarity(NormalizeEmail(a.email), NormalizeEmail(b.email)) else 0.0,
      if o.signalName then NameSimilarity(NormalizeName(a.name), NormalizeName(b.name)) else 0.0,
      if o.signalPhone then PhoneSimilarity(NormalizePhone(a.phone), NormalizePhone(b.phone)) else 0.0,
      if o.signalAddress then AddressSimilarity(a, b) else 0.0,
      MaskSignals(RawSignals(a, b), o),
      o.behavioralEnabled)
  }

  function Assemble(
    emailSim: real, nameSim: real, phoneSim: real, addrSim: real, sig: Signals, behavioralEnabled: bool): Score
  {
    var (combined, source) := ComputeConfidence(sig, emailSim, nameSim, phoneSim, addrSim, behavioralEnabled);
    Score(emailSim, nameSim, phoneSim, addrSim, combined, source, sig)
  }

  /** A scored pair as the detector collects it (internal/services/identity/cluster.go). */
  datatype ScoredPair = ScoredPair(a: int, b: int, score: Score)

  function MakePair(a: Customer, b: Customer, o: ScoreOptions): ScoredPair {
    ScoredPair(a.id, b.id, ScorePair(a, b, o))
  }

  // ----- what a score can be -----------------------------------------------------------------------

  lemma FallbackRange(s: Signals, nameSim: real, addrSim: real, emailSim: real, phoneSim: real)
    ensures 0.0 <= ComputeFallback(s, nameSim, addrSim, emailSim, phoneSim) <= 0.64
  {
  }

  /** Confidence stays in [0, 0.98]; only a shared email or phone exceeds 0.96; without a country
      match nothing scores. */
  lemma CombinedRange(a: Customer, b: Customer, o: ScoreOptions)
    ensures var s := ScorePair(a, b, o);
            && 0.0 <= s.combined <= 0.98
            && (s.combined > 0.96 ==> s.sig.emailExact || s.sig.phoneExact)
            && (s.combined > 0.0 ==> s.sig.sameCountry)
  {
    var s := ScorePair(a, b, o);
    hide ExtractSignals, MaskSignals, RawSignals;
    FallbackRange(s.sig, s.nameSim, s.addressSim, s.emailSim, s.phoneSim);
  }

  /** A positive score always rests on a shared email, a shared phone, a name similarity of
      0.82, or (behavioural rules on) a shared order address with equal email local parts. */
  lemma ScoreNeedsEvidence(a: Customer, b: Customer, o: ScoreOptions)
    requires ScorePair(a, b, o).combined > 0.0
    ensures var s := ScorePair(a, b, o).sig;
            || s.emailExact
            || s.phoneExact
            || s.nameMedium
            || (o.behavioralEnabled && s.orderAddressExact && s.emailLocalExact)
  {
    var s := ScorePair(a, b, o);
    assert s.sig.nameHigh ==> s.sig.nameMedium;
  }

  // ----- what the rule table computes --------------------------------------------------------------

  /** Some rule of the table, read on its own, gives `v`. */
  predicate Offers(s: Signals, v: real) {
    || (v == 0.98 && (s.emailExact || s.phoneExact))
    || (v == 0.92 && s.nameHigh && s.addressExact)
    || (v == 0.90 && s.nameHigh && s.phoneSuffix)
    || (v == 0.88 && s.nameHigh && s.emailLocalExact)
    || (v == 0.85 && s.nameMedium && s.addressExact)
    || (v == 0.82 && s.nameMedium && s.phoneSuffix)
    || (v == 0.80 && ((s.nameMedium && s.emailLocalExact) || (s.nameHigh && s.emailLocalFuzzy)))
    || (v == 0.76 && s.nameHigh && s.addressPartial)
    || (v == 0.74 && s.nameMedium && s.emailLocalFuzzy)
    || (v == 0.70 && s.nameHigh && s.emailDomainMatch)
  }

  /** The cascade is the best offer, so the order of its rules does not matter; and its last rule,
      worth 0.65, never decides anything. */
  lemma BaseRuleIsBestOffer(s: Signals)
    ensures var base := ComputeBaseRules(s);
            && (forall v :: Offers(s, v) ==> v <= base)
            && (if base == 0.0 then forall v :: !Offers(s, v) else Offers(s, base))
            && base != 0.65
  {
  }

  /** Everything that speaks for a match in `s` also holds in `t`, and every objection in `t` was one in `s`. */
  predicate StrongerEvidence(s: Signals, t: Signals) {
    && (s.sameCountry ==> t.sameCountry)
    && (s.emailExact ==> t.emailExact) && (s.phoneExact ==> t.phoneExact)
    && (s.emailLocalExact ==> t.emailLocalExact) && (s.emailLocalFuzzy ==> t.emailLocalFuzzy)
    && (s.emailDomainMatch ==> t.emailDomainMatch) && (s.phoneSuffix ==> t.phoneSuffix)
    && (s.nameHigh ==> t.nameHigh) && (s.nameMedium ==> t.nameMedium)
    && (s.addressExact ==> t.addressExact) && (s.addressPartial ==> t.addressPartial)
    && (s.noteShared ==> t.noteShared)
    && (t.differentLastName ==> s.differentLastName) && (t.differentEmailDomain ==> s.differentEmailDomain)
    && (t.phoneAsymmetry ==> s.phoneAsymmetry)
    && (t.orderNameConflict ==> s.orderNameConflict) && (t.orderAddressConflict ==> s.orderAddressConflict)
  }

  lemma StrongerOffers(s: Signals, t: Signals)
    requires StrongerEvidence(s, t)
    ensures ComputeBaseRules(s) <= ComputeBaseRules(t)
    ensures Penalty(t) <= Penalty(s)
    ensures s.sameCountry ==> t.sameCountry
  {
  }

  lemma BaseRuleRange(s: Signals)
    ensures var base := ComputeBaseRules(s); base == 0.0 || 0.70 <= base <= 0.92 || base == 0.98
    ensures Penalty(s) >= 0.0
  {
  }

  /** Without the behavioural rules more evidence and fewer objections never lower the confidence,
      although rule table, fallback and penalties hand over to each other. */
  lemma EvidenceNeverHurts(
    s: Signals, emailSim: real, nameSim: real, phoneSim: real, addrSim: real,
    t: Signals, emailSim': real, nameSim': real, phoneSim': real, addrSim': real)
    requires StrongerEvidence(s, t)
    requires emailSim <= emailSim' && nameSim <= nameSim' && phoneSim <= phoneSim' && addrSim <= addrSim'
    ensures ComputeConfidence(s, emailSim, nameSim, phoneSim, addrSim, false).0 <=
            ComputeConfidence(t, emailSim', nameSim', phoneSim', addrSim', false).0
  {
    hide StrongerEvidence, ComputeBaseRules, ComputeFallback, Penalty, BehavioralRule;
    StrongerOffers(s, t);
    BaseRuleRange(s);
    BaseRuleRange(t);
    FallbackRange(s, nameSim, addrSim, emailSim, phoneSim);
    FallbackRange(t, nameSim', addrSim', emailSim', phoneSim');
    StrongerFallback(s, emailSim, nameSim, phoneSim, addrSim, t, emailSim', nameSim', phoneSim', addrSim');
  }

  lemma StrongerFallback(
    s: Signals, emailSim: real, nameSim: real, phoneSim: real, addrSim: real,
    t: Signals, emailSim': real, nameSim': real, phoneSim': real, addrSim': real)
    requires StrongerEvidence(s, t)
    requires emailSim <= emailSim' && nameSim <= nameSim' && phoneSim <= phoneSim' && addrSim <= addrSim'
    ensures ComputeFallback(s, nameSim, addrSim, emailSim, phoneSim) <=
            ComputeFallback(t, nameSim', addrSim', emailSim', phoneSim')
  {
  }

  predicate NoObjection(s: Signals) {
    !s.differentLastName && !s.differentEmailDomain && !s.phoneAsymmetry && !s.orderNameConflict && !s.orderAddressConflict
  }

  /** Turning the behavioural rules on lowers a pair's confidence exactly when such a rule fires although
      the email or the phone is the same, or when one of the two weakest fires on an unobjected pair
      with the same address. */
  lemma BehaviorLowersIff(s: Signals, emailSim: real, nameSim: real, phoneSim: real, addrSim: real)
    ensures ComputeConfidence(s, emailSim, nameSim, phoneSim, addrSim, true).0 <
            ComputeConfidence(s, emailSim, nameSim, phoneSim, addrSim, false).0 <==>
            && s.sameCountry && BehavioralRule(s).Some?
            && (s.emailExact || s.phoneExact ||
                (BehavioralRule(s).value.0 < 0.92 && s.addressExact && NoObjection(s)))
  {
    BaseRuleRange(s);
    FallbackRange(s, nameSim, addrSim, emailSim, phoneSim);
    TopOffers(s);
    hide ComputeBaseRules, ComputeFallback, Penalty;
  }

  lemma TopOffers(s: Signals)
    ensures ComputeBaseRules(s) == 0.98 <==> s.emailExact || s.phoneExact
    ensures ComputeBaseRules(s) < 0.98 ==>
              (ComputeBaseRules(s) > 0.90 <==> s.nameHigh && s.addressExact) &&
              (s.nameHigh && s.addressExact ==> ComputeBaseRules(s) == 0.92)
    ensures if NoObjection(s) then Penalty(s) == 0.0 else Penalty(s) >= 0.05
  {
  }

  // ----- between 0 and 0.65 --------------------------------------------------------------------------

  /** A score is never 0 or at least 0.65 only: it lies strictly between exactly when the countries allow
      it, no behavioural rule decides, neither email nor phone is the same, and the penalties leave
      something, but less than 0.65, of what rule table or fallback gave. */
  lemma ScoreInGapIff(a: Customer, b: Customer, o: ScoreOptions)
    ensures var s := ScorePair(a, b, o);
            var base := ProfileBase(s.sig, s.emailSim, s.nameSim, s.phoneSim, s.addressSim);
            0.0 < s.combined < 0.65 <==>
              && s.sig.sameCountry
              && !(o.behavioralEnabled && BehavioralRule(s.sig).Some?)
              && !s.sig.emailExact && !s.sig.phoneExact
              && Penalty(s.sig) < base < 0.65 + Penalty(s.sig)
  {
    var s := ScorePair(a, b, o);
    BaseRuleRange(s.sig);
    TopOffers(s.sig);
    FallbackRange(s.sig, s.nameSim, s.addressSim, s.emailSim, s.phoneSim);
    hide ComputeBaseRules, ComputeFallback, Penalty, MaskSignals, RawSignals;
    hide EmailSimilarity, NameSimilarity, PhoneSimilarity, AddressSimilarity;
    hide NormalizeEmail, NormalizeName, NormalizePhone;
  }

  lemma SimilaritiesNonNegative(a: Customer, b: Customer, o: ScoreOptions)
    ensures var s := ScorePair(a, b, o);
            && s.emailSim >= 0.0 && s.nameSim >= 0.0 && s.phoneSim >= 0.0 && s.addressSim >= 0.0
            && (s.sig.nameMedium ==> s.nameSim >= 0.82) && (s.sig.nameHigh ==> s.sig.nameMedium)
  {
    EmailSimilarityTellsSignals(NormalizeEmail(a.email), NormalizeEmail(b.email));
    Jaro.JaroWinklerBounds(Utf8Bytes(NormalizeName(a.name)), Utf8Bytes(NormalizeName(b.name)));
    Levenshtein.SimilarityInUnitInterval(ExtractAddress(a), ExtractAddress(b));
    hide NormalizeEmail, NormalizeName, NormalizePhone, EmailSimilarity, CompareEmails, ExtractAddress, ComputeConfidence;
  }

  /** With a close name the fallback gives at least 0.328; so penalties up to 0.32 never use it up. */
  lemma FallbackOutweighs(a: Customer, b: Customer, o: ScoreOptions)
    ensures var s := ScorePair(a, b, o);
            var fallback := ComputeFallback(s.sig, s.nameSim, s.addressSim, s.emailSim, s.phoneSim);
            if s.sig.nameMedium then fallback >= 0.328 else fallback == 0.0
  {
    SimilaritiesNonNegative(a, b, o);
    hide ScorePair;
  }

  /** The same in terms of signals and penalty: the strength of the fallback only matters once the
      penalties exceed 0.32. */
  lemma ScoreInGapBySignals(a: Customer, b: Customer, o: ScoreOptions)
    ensures var s := ScorePair(a, b, o);
            var (rule, penalty) := (ComputeBaseRules(s.sig), Penalty(s.sig));
            0.0 < s.combined < 0.65 <==>
              && s.sig.sameCountry
              && !(o.behavioralEnabled && BehavioralRule(s.sig).Some?)
              && !s.sig.emailExact && !s.sig.phoneExact
              && (if rule > 0.0 then rule < 0.65 + penalty
                  else s.sig.nameMedium &&
                       (penalty <= 0.32 ||
                        penalty < ComputeFallback(s.sig, s.nameSim, s.addressSim, s.emailSim, s.phoneSim)))
  {
    ScoreInGapIff(a, b, o);
    FallbackOutweighs(a, b, o);
    var s := ScorePair(a, b, o);
    BaseRuleRange(s.sig);
    FallbackRange(s.sig, s.nameSim, s.addressSim, s.emailSim, s.phoneSim);
    assert Penalty(s.sig) <= 0.47;
    hide ScorePair, ComputeBaseRules, ComputeFallback, Penalty, BehavioralRule;
  }

  /** A customer with nothing but a short name, an email and some order addresses. */
  function Sample(id: int, email: string, places: seq<OrderAddress>): Customer {
    Customer(id, email, "li", "", NoAddress, [], "", "", None, places, [])
  }

  lemma SampleFields()
    ensures NormalizeEmail("") == "" && NormalizeEmail("a@x") == "a@x"
    ensures NormalizeName("li") == "li" && NormalizePhone("") == ""
    ensures NameSimilarity("li", "li") == 1.0
    ensures Lower("us") == "us" && Lower("ca") == "ca"
  {
    hide NormalizeEmail, NormalizeName;
    NormalEmailIsFixed("");
    FirstIndexIs("a@x", '@', 1);
    NormalEmailIsFixed("a@x");
    NormalNameIsFixed("li");
    FoldedIsFixed("us");
    FoldedIsFixed("ca");
  }

  /** The signals of two samples with the same email. */
  lemma SampleSignals(a: Customer, b: Customer, email: string, o: ScoreOptions)
    requires email == "" || email == "a@x"
    requires a == Sample(a.id, email, a.orderAddresses) && b == Sample(b.id, email, b.orderAddresses)
    ensures var s := ScorePair(a, b, o);
            && s.emailSim == (if o.signalEmail && email != "" then 1.0 else 0.0)
            && s.nameSim == (if o.signalName then 1.0 else 0.0) && s.phoneSim == 0.0 && s.addressSim == 0.0
            && s.sig.sameCountry && s.sig.emailExact == (o.signalEmail && email != "")
            && !s.sig.emailLocalExact && !s.sig.emailLocalFuzzy && !s.sig.emailDomainMatch
            && !s.sig.phoneExact && !s.sig.phoneSuffix
            && s.sig.nameHigh == s.sig.nameMedium == o.signalName && !s.sig.addressExact && !s.sig.addressPartial
            && !s.sig.orderNameHigh && !s.sig.recentOrderOverlap && !s.sig.noteShared
            && !s.sig.differentLastName && !s.sig.differentEmailDomain && !s.sig.phoneAsymmetry && !s.sig.orderNameConflict
            && s.sig.orderAddressExact == (o.signalAddress && |a.orderAddresses| > 0 && |b.orderAddresses| > 0 &&
                                           AnyExactOrderAddressMatch(a.orderAddresses, b.orderAddresses))
            && s.sig.orderAddressConflict == (o.signalAddress && |a.orderAddresses| > 0 && |b.orderAddresses| > 0 &&
                                              AnyConflictingOrderCountries(a.orderAddresses, b.orderAddresses))
  {
    SampleFields();
    hide NormalizeEmail, NormalizeName, NormalizePhone, NameSimilarity, ComputeConfidence, LastToken;
    hide AnyExactOrderAddressMatch, AnyConflictingOrderCountries, AnyPartialOrderAddressMatch;
    hide AnyHighOrderNameMatch, AnyConflictingOrderNames;
    NoNote();
    hide SharedNote, RecentOverlap;
    assert !RecentOverlap(None, None) by {
      NoTimes();
    }
  }

  lemma NoNote()
    ensures !SharedNote("", "")
  {
  }

  lemma NoTimes()
    ensures !RecentOverlap(None, None)
  {
  }

  /** Two namesakes with no other data score 0.4. */
  lemma NamesakesScoreInGap(o: ScoreOptions)
    requires o.signalName
    ensures ScorePair(Sample(1, "", []), Sample(2, "", []), o).combined == 0.4
  {
    var a, b := Sample(1, "", []), Sample(2, "", []);
    SampleSignals(a, b, "", o);
    hide RawSignals, MaskSignals, NormalizeEmail, NormalizeName, NormalizePhone, NameSimilarity, EmailSimilarity;
  }

  /** Two customers with the same email, name and order address: 0.98, but 0.96 with behavioural rules. */
  lemma SharedOrderAddressLowers(o: ScoreOptions)
    requires o.signalEmail && o.signalName && o.signalAddress
    ensures var (a, b) := (Sample(1, "a@x", [OrderAddress("", "", "", "us")]), Sample(2, "a@x", [OrderAddress("", "", "", "us")]));
            && ScorePair(a, b, o.(behavioralEnabled := false)).combined == 0.98
            && ScorePair(a, b, o.(behavioralEnabled := true)).combined == 0.96
  {
    var place := OrderAddress("", "", "", "us");
    var a, b := Sample(1, "a@x", [place]), Sample(2, "a@x", [place]);
    SampleSignals(a, b, "a@x", o.(behavioralEnabled := false));
    SampleSignals(a, b, "a@x", o.(behavioralEnabled := true));
    assert place in [place] && SameOrderPlace(place, place);
    hide RawSignals, MaskSignals, NormalizeEmail, NormalizeName, NormalizePhone, NameSimilarity, EmailSimilarity;
    hide SameOrderPlace, AnyConflictingOrderCountries;
  }

  /** Namesakes of whom one has also ordered to a second country: 0.28 one way round and 0.4 the other,
      so the order alone decides whether the pair reaches the 0.30 that detection keeps. */
  lemma OrderDecidesScore(o: ScoreOptions)
    requires o.signalName && o.signalAddress && !o.behavioralEnabled
    ensures var (us, ca) := (OrderAddress("", "", "", "us"), OrderAddress("", "", "", "ca"));
            var (a, b) := (Sample(1, "", [us]), Sample(2, "", [us, ca]));
            && ScorePair(a, b, o).combined == 0.28
            && ScorePair(b, a, o).combined == 0.4
  {
    var us, ca := OrderAddress("", "", "", "us"), OrderAddress("", "", "", "ca");
    var a, b := Sample(1, "", [us]), Sample(2, "", [us, ca]);
    SampleSignals(a, b, "", o);
    SampleSignals(b, a, "", o);
    CountriesOfSamples(us, ca);
    hide RawSignals, MaskSignals, NormalizeEmail, NormalizeName, NormalizePhone, NameSimilarity, EmailSimilarity;
    hide AnyConflictingOrderCountries, AnyExactOrderAddressMatch;
  }

  lemma CountriesOfSamples(us: OrderAddress, ca: OrderAddress)
    requires us == OrderAddress("", "", "", "us") && ca == OrderAddress("", "", "", "ca")
    ensures AnyConflictingOrderCountries([us], [us, ca]) && !AnyConflictingOrderCountries([us, ca], [us])
  {
    SampleFields();
    hide Lower;
    assert us in [us] && us in [us, ca] && ca in [us, ca];
    assert OrderCountries([us]) == {"us"};
    assert OrderCountries([us, ca]) == {"us", "ca"};
    assert "us"[0] != "ca"[0];
  }

  // ----- what the email signals mean ---------------------------------------------------------------

  /** Up to 99 bytes of local part, `localExact` says exactly: same local part at two domains. */
  lemma LocalExactMeansIdentical(a: string, b: string)
    requires SplitEmail(a).Some? && SplitEmail(b).Some?
    requires Levenshtein.LargerByteLength(SplitEmail(a).value.0, SplitEmail(b).value.0) < 100
    ensures CompareEmails(a, b).localExact <==>
            SplitEmail(a).value.0 == SplitEmail(b).value.0 && SplitEmail(a).value.1 != SplitEmail(b).value.1
  {
    Levenshtein.NearOneMeansEqual(SplitEmail(a).value.0, SplitEmail(b).value.0);
  }

  /** A local part of 64 bytes, the most section 4.5.3.1.1 of RFC 5321 allows, is within that bound,
      and `localFuzzy` never fires below 13 bytes. */
  lemma LocalSignalsWithinMailLimits(a: string, b: string)
    requires SplitEmail(a).Some? && SplitEmail(b).Some?
    ensures var (localA, domainA) := SplitEmail(a).value;
            var (localB, domainB) := SplitEmail(b).value;
            && (ByteLength(localA) <= 64 && ByteLength(localB) <= 64 ==>
                  (CompareEmails(a, b).localExact <==> localA == localB && domainA != domainB))
            && (CompareEmails(a, b).localFuzzy ==>
                  localA != localB && (ByteLength(localA) >= 13 || ByteLength(localB) >= 13))
  {
    var localA, localB := SplitEmail(a).value.0, SplitEmail(b).value.0;
    if ByteLength(localA) <= 64 && ByteLength(localB) <= 64 {
      LocalExactMeansIdentical(a, b);
    }
    if CompareEmails(a, b).localFuzzy {
      Levenshtein.FuzzyNeedsThirteenBytes(localA, localB);
    }
  }

  /** The email similarity and the email signals tell the same story. */
  lemma EmailSimilarityTellsSignals(a: string, b: string)
    ensures var (sim, e) := (EmailSimilarity(a, b), CompareEmails(a, b));
            && 0.0 <= sim <= 1.0
            && (sim == 1.0 <==> e.exact)
            && (e.domainMatch ==> sim <= 0.8)
            && (SplitEmail(a).Some? && SplitEmail(b).Some? && SplitEmail(a).value.1 != SplitEmail(b).value.1 ==>
                  (sim == 0.35 <==> e.localExact) && (sim == 0.25 <==> e.localFuzzy) && sim <= 0.35)
  {
    Levenshtein.SimilarityInUnitInterval(a, b);
    if SplitEmail(a).Some? && SplitEmail(b).Some? {
      SplitIsWhole(a, b);
      Levenshtein.SimilarityInUnitInterval(SplitEmail(a).value.0, SplitEmail(b).value.0);
    }
    hide Levenshtein.Similarity;
  }

  lemma SplitIsWhole(a: string, b: string)
    requires SplitEmail(a).Some? && SplitEmail(b).Some?
    ensures a == b <==> SplitEmail(a) == SplitEmail(b)
    ensures a != "" && b != ""
  {
    assert a == SplitEmail(a).value.0 + "@" + SplitEmail(a).value.1;
    assert b == SplitEmail(b).value.0 + "@" + SplitEmail(b).value.1;
  }

  // ----- how far scoring is symmetric --------------------------------------------------------------

  lemma CompareEmailsSymmetric(a: string, b: string)
    ensures CompareEmails(a, b) == CompareEmails(b, a)
    ensures EmailSimilarity(a, b) == EmailSimilarity(b, a)
  {
    Levenshtein.SimilaritySymmetric(a, b);
    if SplitEmail(a).Some? && SplitEmail(b).Some? {
      Levenshtein.SimilaritySymmetric(SplitEmail(a).value.0, SplitEmail(b).value.0);
    }
  }

  lemma NameSimilaritySymmetric(a: string, b: string)
    ensures NameSimilarity(a, b) == NameSimilarity(b, a)
  {
    Jaro.JaroWinklerSymmetric(Utf8Bytes(a), Utf8Bytes(b));
  }

  lemma AddressSimilaritySymmetric(a: Customer, b: Customer)
    ensures AddressSimilarity(a, b) == AddressSimilarity(b, a)
  {
    Levenshtein.SimilaritySymmetric(ExtractAddress(a), ExtractAddress(b));
  }

  lemma OrderPlacesSymmetric(xs: seq<OrderAddress>, ys: seq<OrderAddress>)
    ensures AnyExactOrderAddressMatch(xs, ys) == AnyExactOrderAddressMatch(ys, xs)
    ensures AnyPartialOrderAddressMatch(xs, ys) == AnyPartialOrderAddressMatch(ys, xs)
  {
    forall x, y
      ensures SameOrderPlace(x, y) == SameOrderPlace(y, x)
      ensures SimilarOrderPlace(x, y) == SimilarOrderPlace(y, x)
    {
      Levenshtein.SimilaritySymmetric(OrderAddressLine(x), OrderAddressLine(y));
    }
  }

  lemma OrderNamesSymmetric(xs: seq<string>, ys: seq<string>)
    ensures AnyHighOrderNameMatch(xs, ys) == AnyHighOrderNameMatch(ys, xs)
    ensures AnyConflictingOrderNames(xs, ys) == AnyConflictingOrderNames(ys, xs)
  {
    forall x, y
      ensures OrderNameSimilarity(x, y) == OrderNameSimilarity(y, x)
    {
      NameSimilaritySymmetric(Lower(x), Lower(y));
    }
  }

  lemma RawSignalsSwapped(a: Customer, b: Customer)
    ensures RawSignals(b, a) ==
            RawSignals(a, b).(orderAddressConflict := RawSignals(b, a).orderAddressConflict)
  {
    CompareEmailsSymmetric(NormalizeEmail(a.email), NormalizeEmail(b.email));
    NameSimilaritySymmetric(NormalizeName(a.name), NormalizeName(b.name));
    AddressSimilaritySymmetric(a, b);
    OrderPlacesSymmetric(a.orderAddresses, b.orderAddresses);
    OrderNamesSymmetric(a.orderNames, b.orderNames);
    hide CompareEmails, NameSimilarity, AddressSimilarity, NormalizeEmail, NormalizePhone, NormalizeName;
    hide AnyExactOrderAddressMatch, AnyPartialOrderAddressMatch, AnyHighOrderNameMatch, AnyConflictingOrderNames;
  }

  /** One side's order countries are a proper, non-empty part of the other's. */
  predicate NestedOrderCountries(a: Customer, b: Customer) {
    var ca, cb := OrderCountries(a.orderAddresses), OrderCountries(b.orderAddresses);
    (ca != {} && ca < cb) || (cb != {} && cb < ca)
  }

  lemma ConflictAsymmetricIffNested(a: Customer, b: Customer)
    ensures RawSignals(a, b).orderAddressConflict != RawSignals(b, a).orderAddressConflict <==>
            NestedOrderCountries(a, b)
  {
    hide CompareEmails, NameSimilarity, AddressSimilarity, NormalizeEmail, NormalizePhone, NormalizeName;
    NoAddressesNoCountries(a);
    NoAddressesNoCountries(b);
    hide OrderCountries;
  }

  lemma NoAddressesNoCountries(c: Customer)
    ensures |c.orderAddresses| == 0 ==> OrderCountries(c.orderAddresses) == {}
  {
  }

  lemma MaskedConflict(s: Signals, v: bool, o: ScoreOptions)
    ensures MaskSignals(s.(orderAddressConflict := v), o) ==
            MaskSignals(s, o).(orderAddressConflict := o.signalAddress && v)
  {
  }

  lemma PhoneSimilaritySymmetric(a: string, b: string)
    ensures PhoneSimilarity(a, b) == PhoneSimilarity(b, a)
  {
  }

  /** The score of a pair does not depend on the order of its members, except when address signals
      are on and the order countries of one are a proper non-empty part of the other's. */
  lemma ScorePairSymmetricIff(a: Customer, b: Customer, o: ScoreOptions)
    ensures ScorePair(a, b, o) == ScorePair(b, a, o) <==> !(o.signalAddress && NestedOrderCountries(a, b))
  {
    MaskedSignalsSymmetricIff(a, b, o);
    CompareEmailsSymmetric(NormalizeEmail(a.email), NormalizeEmail(b.email));
    NameSimilaritySymmetric(NormalizeName(a.name), NormalizeName(b.name));
    PhoneSimilaritySymmetric(NormalizePhone(a.phone), NormalizePhone(b.phone));
    AddressSimilaritySymmetric(a, b);
    hide RawSignals, MaskSignals, ComputeConfidence, NestedOrderCountries;
    hide EmailSimilarity, NameSimilarity, PhoneSimilarity, AddressSimilarity, CompareEmails;
    hide NormalizeEmail, NormalizePhone, NormalizeName;
    assert ScorePair(a, b, o).sig == MaskSignals(RawSignals(a, b), o);
    assert ScorePair(b, a, o).sig == MaskSignals(RawSignals(b, a), o);
  }

  lemma MaskedSignalsSymmetricIff(a: Customer, b: Customer, o: ScoreOptions)
    ensures MaskSignals(RawSignals(a, b), o) == MaskSignals(RawSignals(b, a), o) <==>
            !(o.signalAddress && NestedOrderCountries(a, b))
  {
    RawSignalsSwapped(a, b);
    ConflictAsymmetricIffNested(a, b);
    hide RawSignals, NestedOrderCountries, MaskSignals;
    var r, v, v' := RawSignals(a, b), RawSignals(a, b).orderAddressConflict, RawSignals(b, a).orderAddressConflict;
    MaskedConflict(r, v, o);
    MaskedConflict(r, v', o);
    assert r.(orderAddressConflict := v) == r;
    var m := MaskSignals(r, o);
    assert m.(orderAddressConflict := o.signalAddress && v) == m.(orderAddressConflict := o.signalAddress && v') <==>
           (o.signalAddress && v) == (o.signalAddress && v');
  }
}
