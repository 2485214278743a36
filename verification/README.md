# Duplicate detection, job queue and merge: a verified model

The repository finds duplicate customers of a shop, queues the work in Redis and merges the
duplicates it finds.  This project models its three cores in Dafny and proves what they promise.

**Identity engine** — `Text`, `Levenshtein`, `GreedyMatching`, `Jaro`, `Normalization`, `Scorer`,
`Blocking`, `Graph`, `UnionFind`, `Clustering`, `Risk`, `Conflicts`, `GroupHash`, `Detection`; and, on what
these amount to for two customers, `SignalMeaning`, `Confidence`, `Buckets`, `SharedIdentity`, `Verdicts`.
Loops over tables, mark arrays, bucket maps and the disjoint-set forest are methods with invariants;
each is proved against a definition that does not mention the loop (a shortest edit path, a stable
matching, the brute-force set of pairs, connected components).  Go's map order is left open, so
results hold for every order.

**Job queue** — `JobStore` holds the job rows and the two lists as classes.  `WorkerProtocol` is a
step machine over rows, main list, processing list and one position per worker, with crashes and the
recovery sweep; each Redis or SQL call is one step and everything interleaves.  `WorkerExclusion`
proves mutual exclusion, `ExclusionGuard` the weakest guard that gives it, `RetryLimit` bounds
retries and runs under crashes, `CrashLimits` says which crashes break the limits, `FinalStatus` which
sweeps rewrite a final status, `JobRecovery` which jobs can still end; `JobLifecycle` proves the three
tries and termination without crashes, and `WorkerCode` the sequential code of dispatcher, worker and
sweep to make only its own steps of that machine.  `Continuation` is what the modules that ask what a
state can still lead to share; `Sets` holds facts on finite sets.

**Merge** — `DuplicateTable` is the `duplicate_groups` table under its partial unique index, with
clear-and-rebuild; `MergeRuns` is a step machine of concurrent merge runs racing with re-detection
and status changes, and proves the sequential `Execute` to be one of its runs.
`MergeRaces` says what racing runs can still do from any reachable state.

Scores are exact reals and ids are unbounded integers.  `dafny verify dfyconfig.toml` checks
everything.

## Where the code differs from what is said about it

- The comment at `internal/services/identity/detector.go:21-23` says a score is 0 or at least 0.65;
  `Scorer.ScoreInGapBySignals` says exactly when it lies between, `Scorer.NamesakesScoreInGap` shows it.
- `internal/services/identity/cluster_test.go:40-41` contradicts `internal/services/identity/cluster.go:62`;
  the model follows the code (`Clustering.PartialAddressIsStrong`).
- Scoring is not symmetric (`Scorer.ScorePairSymmetricIff`), the behavioural rules can lower a score
  (`Scorer.BehaviorLowersIff`), better density can worsen a verdict (`Risk.DenserIsWorseIff`),
  and so can dropping the weak-link guard (`Risk.WeakLinkGuardIsMilderIff`).
- Dead code: the accent pass (`Normalization.MarkPassIsIdle`), the phone-code conflict
  (`Conflicts.PhoneCodesNeverDisagree`), the last base rule (`Scorer.BaseRuleIsBestOffer`),
  the default threshold (`Clustering.ThresholdBelowFloorIsIdle`).
- The comment at `internal/services/jobs/dispatcher.go:62-65` expects the sweep to recover a job whose
  push failed; the sweep lists processing rows only (`JobRecovery.LostPushStrands`, `JobRecovery.EndsIffNotStranded`).
- One executor call and one merge record per group do not hold (`MergeRaces.AnotherCallIff`,
  `MergeRaces.AnotherRecordIff`).
- A completed job can be queued again (`FinalStatus.CompletedIsQueuedAgain`), and the limit of three
  retries breaks under a crash at one place (`CrashLimits.LimitBreaksIff`).

## Model

| member | source | states |
|---|---|---|
| Text.Utf8BytesInjective | internal/services/identity/scorer.go:613-617 | different strings have different UTF-8 bytes, so comparing bytes decides equality of names |
| Text.ByteLengthCoversRunes | internal/services/identity/scorer.go:558-568 | the byte length that divides a distance lies between one and four times the code points that the distance counts |
| Text.EncodingIsShortest | internal/services/identity/scorer.go:558-568 | the bytes of a code point decode to it, follow the pattern for their number and are as few as possible (section 3 of RFC 3629) |
| Levenshtein.DistanceIsShortestEditPath | internal/services/identity/scorer.go:570-598 | the recurrence is the least number of single-character insertions, deletions and substitutions: a path of that length exists and none is shorter |
| Levenshtein.DistanceIsMetric | internal/services/identity/scorer.go:570-598 | zero iff equal, symmetric, triangle inequality, between the length difference and the larger length |
| Levenshtein.DistanceTriangle | internal/services/identity/scorer.go:570-598 | triangle inequality for every three strings |
| Levenshtein.CellIsPrefixDistance | internal/services/identity/scorer.go:588-596 | cell (i, j) of the table is the distance of the two prefixes |
| Levenshtein.FillBorders | internal/services/identity/scorer.go:580-587 | the in-place border loops make row 0 and column 0 right and leave the rest alone |
| Levenshtein.FillRow | internal/services/identity/scorer.go:588-596 | one turn of the table loop makes row i right, given row i - 1 |
| Levenshtein.Compute | internal/services/identity/scorer.go:570-598 | the table-filling method returns the edit distance |
| Levenshtein.SimilarityInUnitInterval | internal/services/identity/scorer.go:558-568 | the similarity is in [0, 1] although distance counts code points and the divisor counts bytes, and it is 1 iff the strings are equal |
| Levenshtein.SimilarityCutOff | internal/services/identity/scorer.go:558-568 | a similarity reaches 1 - t iff the distance is at most t times the larger byte length |
| Levenshtein.NearOneMeansEqual | internal/services/identity/scorer.go:558-568 | below 100 bytes, 0.99 or more means equal |
| Levenshtein.OneEditPassesFromHundred | internal/services/identity/scorer.go:558-568 | the bound is sharp: strings one edit apart pass 0.99 exactly from 100 bytes on |
| Levenshtein.FuzzyNeedsThirteenBytes | internal/services/identity/scorer.go:202-211 | a similarity in [0.92, 0.99) needs a string of at least 13 bytes |
| GreedyMatching.GreedyIsStable | internal/services/identity/scorer.go:728-745 | the left-to-right scan computes the unique matching in which no compatible pair is left that both sides prefer |
| GreedyMatching.StableSymmetric | internal/services/identity/scorer.go:728-745 | that matching does not depend on which string is scanned |
| GreedyMatching.GreedySymmetric | internal/services/identity/scorer.go:728-745 | scanning from the second string finds the very same pairs |
| GreedyMatching.MatchCountsAgree | internal/services/identity/scorer.go:728-745 | equally many positions are marked in both strings |
| GreedyMatching.MasksSwap | internal/services/identity/scorer.go:725-745 | exchanging the strings exchanges the two mark arrays |
| GreedyMatching.MatchingIsMaximal | internal/services/identity/scorer.go:721-745 | matched positions hold the same byte and are aligned or less than half a string length apart; of any two positions that fit so at least one is matched |
| Jaro.FindFree | internal/services/identity/scorer.go:729-744 | the inner loop finds the leftmost free compatible byte, or reports that there is none |
| Jaro.MarkMatches | internal/services/identity/scorer.go:725-745 | the matching loop leaves exactly the marks and the count of the greedy matching |
| Jaro.CountTranspositions | internal/services/identity/scorer.go:749-761 | the transposition loop never moves its cursor past the array and counts the out-of-order matches |
| Jaro.ComputeJaro | internal/services/identity/scorer.go:719-764 | the loops together return the Jaro score |
| Jaro.JaroSymmetric | internal/services/identity/scorer.go:719-764 | Jaro similarity is symmetric, down to the matched byte sequences |
| Jaro.JaroBounds | internal/services/identity/scorer.go:719-764 | Jaro similarity is in [0, 1] and 1 only for equal strings |
| Jaro.JaroCounts | internal/services/identity/scorer.go:749-764 | the score is the mean of three shares: the matched bytes of either string, and the matches in order, two bytes that changed places counting as one |
| Jaro.UncrossedMatchesAgree | internal/services/identity/scorer.go:749-761 | only matches that cross are ever out of order |
| Jaro.ComputeJaroWinkler | internal/services/identity/scorer.go:613-630 | the prefix loop and the bonus return the Jaro-Winkler score |
| Jaro.JaroWinklerSymmetric | internal/services/identity/scorer.go:613-630 | Jaro-Winkler similarity is symmetric |
| Jaro.JaroWinklerBounds | internal/services/identity/scorer.go:613-630 | Jaro <= Jaro-Winkler <= 1, and it is 1 iff the strings are equal |
| Jaro.BonusCounts | internal/services/identity/scorer.go:620-630 | the bonus is a tenth of what is missing for every common leading byte, up to four |
| Jaro.ExampleNames | internal/services/identity/scorer.go:33-36 | the examples of the two thresholds: "jon smith" and "john smith" score 0.973, "john smith" and "jane smith" 0.88 |
| Normalization.NormalizeEmailIdempotent | internal/utils/normalization.go:16-25 | normalising an email twice is normalising it once |
| Normalization.NormalizedEmailIsCut | internal/utils/normalization.go:16-25 | what is left of an address: trimmed and folded, its local part up to the first plus sign, its domain whole |
| Normalization.EmailDomainFollowsAt | internal/utils/normalization.go:49-55 | the domain is what follows the first at sign, and normalising keeps it |
| Normalization.TrimIsSlice | internal/utils/normalization.go:17 | trimming cuts white space off both ends, all of it and nothing else |
| Normalization.TrimmedCharacters | internal/utils/normalization.go:17 | what is trimmed is the code points with the Unicode property White_Space |
| Normalization.LowerFoldsCase | internal/utils/normalization.go:17 | two letters fold alike exactly when they are equal but for their case |
| Normalization.NormalizePhoneIdempotent | internal/utils/normalization.go:29-31 | the same for phones |
| Normalization.NormalizePhoneKeepsDigits | internal/utils/normalization.go:29-31 | digits stay, in order, and nothing else does |
| Normalization.NormalizeNameIdempotent | internal/utils/normalization.go:34-46 | the same for names, through trimming, case, punctuation, collapsing and accents |
| Normalization.NormalizeNameJoinsWords | internal/utils/normalization.go:34-46 | the result is the words of the name, in order, with one blank between any two |
| Normalization.NameSeparators | internal/utils/normalization.go:36-37 | white space of any kind separates two words, any other sign that is no word character glues them together |
| Normalization.NameAlphabet | internal/utils/normalization.go:34-46 | small ASCII letters, digits, underscore and blank are the alphabet of normalised names |
| Normalization.MarkPassIsIdle | internal/utils/normalization.go:34-46 | the accent pass never finds a mark: the punctuation pass has removed every non-ASCII character before it |
| Normalization.StripMarksLoop | internal/utils/normalization.go:38-45 | the builder loop keeps exactly the characters that are not combining marks |
| Normalization.LastTokenIsLast | internal/services/identity/scorer.go:460-466 | the last token is the last stretch without white space |
| Scorer.CombinedRange | internal/services/identity/scorer.go:298-372 | confidence is in [0, 0.98]; above 0.96 only with the same email or phone; 0 when both countries are known and differ |
| Scorer.ScoreNeedsEvidence | internal/services/identity/scorer.go:298-455 | a positive confidence rests on the same email, the same phone, a name similarity of 0.82, or the behavioural address rule |
| Scorer.BaseRuleIsBestOffer | internal/services/identity/scorer.go:378-427 | the rule cascade is the largest value any rule offers on its own, so its order does not matter; the final 0.65 rule never decides |
| Scorer.EvidenceNeverHurts | internal/services/identity/scorer.go:298-455 | without behavioural rules, more evidence and fewer objections never lower the confidence across rules, fallback and penalties |
| Scorer.BehaviorLowersIff | internal/services/identity/scorer.go:298-372 | exactly when turning the behavioural rules on lowers a confidence: such a rule fires although email or phone is the same, or a weak one fires on an unobjected pair with the same address |
| Scorer.SharedOrderAddressLowers | internal/services/identity/scorer.go:298-372 | two customers with the same email, name and order address: 0.98, but 0.96 with behavioural rules on |
| Scorer.ScoreInGapIff | internal/services/identity/scorer.go:298-455 | a score lies strictly between 0 and 0.65 exactly when the countries allow it, no behavioural rule decides, email and phone differ, and the penalties leave something but less than 0.65 |
| Scorer.ScoreInGapBySignals | internal/services/identity/scorer.go:298-455 | the same condition without the base score: a rule fires and lies less than 0.65 above the penalty, or none fires, the name similarity reaches 0.82 and the penalty is at most 0.32 or below the fallback |
| Scorer.NamesakesScoreInGap | internal/services/identity/scorer.go:439-455 | two namesakes with no other data score 0.4 |
| Scorer.LocalExactMeansIdentical | internal/services/identity/scorer.go:202-211 | for local parts under 100 bytes, EmailLocalExact means the same local part at two domains |
| Scorer.LocalSignalsWithinMailLimits | internal/services/identity/scorer.go:202-211 | so it does for every local part within 64 octets (section 4.5.3.1.1 of RFC 5321), and EmailLocalFuzzy needs 13 bytes |
| Scorer.EmailSimilarityTellsSignals | internal/services/identity/scorer.go:526-556 | the email similarity is in [0, 1], 1 iff the addresses match, and across domains 0.35 or 0.25 exactly when the local-exact or local-fuzzy signal is set |
| Scorer.ConflictAsymmetricIffNested | internal/services/identity/scorer.go:698-717 | the order-country conflict depends on the order of the pair iff one side's countries are a proper non-empty part of the other's |
| Scorer.ScorePairSymmetricIff | internal/services/identity/scorer.go:112-173 | the whole score is symmetric except when address signals are on and the order countries are so nested |
| Scorer.OrderDecidesScore | internal/services/identity/scorer.go:698-717 | two namesakes of whom one has also ordered to a second country score 0.28 one way round and 0.4 the other |
| SignalMeaning.EmailSignalsMean | internal/services/identity/scorer.go:194-219 | every email signal of a scored pair, read off the two addresses and the switch: same address, same domain, or local parts at two domains within 1 or 8 edits per 100 bytes |
| SignalMeaning.EmailSimilarityGrades | internal/services/identity/scorer.go:526-556 | the displayed email similarity: 0.35, 0.25, 0.15 or 0 across domains by edits of the local parts, four fifths of their similarity within one |
| SignalMeaning.EmailSimilarityOfPlainTexts | internal/services/identity/scorer.go:535-537 | without a domain the whole texts are compared |
| SignalMeaning.PhoneSignalsMean | internal/services/identity/scorer.go:221-230 | every phone signal and the phone similarity: equal digits, digits with a prefix in front, or a number on one side only |
| SignalMeaning.NameSignalsMean | internal/services/identity/scorer.go:232-241 | every name signal: the similarity of the joined words at 0.90 and 0.82, and different last words |
| SignalMeaning.LastTokenIsLastWord | internal/services/identity/scorer.go:236-241 | the last token of a normalised name is the last word of the name as typed in |
| SignalMeaning.CountryBlocks | internal/services/identity/scorer.go:186-192 | the country blocks exactly when both addresses have a non-empty country entry and the two differ, and then nothing scores in any setting |
| SignalMeaning.AddressLine | internal/services/identity/scorer.go:484-506 | which entries make the address, and when there is none |
| SignalMeaning.EntriesMakeAddress | internal/services/identity/scorer.go:484-506 | two addresses that agree in four of the five entries are equal exactly when they agree in the fifth |
| SignalMeaning.AddressSignalsMean | internal/services/identity/scorer.go:243-245 | the address signals: at most 1 or 35 edits per 100 bytes |
| SignalMeaning.PlaceSignalsMean | internal/services/identity/scorer.go:247-253 | the signals of order addresses: same city, zip and country; at most 15 edits per 100 bytes; an order to a country the other never ordered to |
| SignalMeaning.OrderNameSignalsMean | internal/services/identity/scorer.go:254-270 | the signals of order names: some two similar to 0.92, some two no more than to 0.70 |
| SignalMeaning.TimeAndNoteSignalsMean | internal/services/identity/scorer.go:257-281 | last orders at most 604800 seconds apart; the same note of ten bytes or more |
| SignalMeaning.DisplayedSimilarities | internal/services/identity/scorer.go:113-143 | the displayed similarities and the source of a positive score |
| SignalMeaning.SwitchedOffIsIgnored | internal/services/identity/scorer.go:139-166 | a channel that is switched off has no influence on any part of the score |
| Confidence.BehavioralRuleIsBestOffer | internal/services/identity/scorer.go:304-320 | the behavioural cascade, too, is its best offer, so its order does not matter |
| Confidence.BehaviorReachesNinety | internal/services/identity/scorer.go:303-320 | with the behavioural rules on a pair on which one fires scores 0.90 to 0.96, whatever else speaks against it |
| Confidence.ObjectionPrices | internal/services/identity/scorer.go:348-364 | every objection has its own price, whatever else is objected |
| Confidence.FallbackShares | internal/services/identity/scorer.go:439-455 | with a similar name each similarity is worth its share and a shared note 0.04, up to 0.64; without one nothing is |
| Confidence.PromisedConfidences | internal/services/identity/scorer_test.go:15-239 | the confidences and sources that the tests fix |
| Blocking.AddPair | internal/services/identity/detector.go:285-340 | the collector scores each unordered id pair once and keeps it iff it reaches 0.30 |
| Blocking.BuildBuckets | internal/services/identity/detector.go:352-381 | an index files every customer under its key and nowhere else, in increasing order |
| Blocking.ScoreBucket | internal/services/identity/detector.go:342-350 | every two indices of a bucket are handed to the collector, smaller first |
| Blocking.ScoreBuckets | internal/services/identity/detector.go:342-382 | all customers with equal keys are compared, in whatever order the map yields the buckets |
| Blocking.ScoreCloseNames | internal/services/identity/detector.go:384-409 | the name pass hands over exactly the cross-domain pairs with close names |
| Blocking.ScorePairs | internal/services/identity/detector.go:281-412 | for every bucket order: only candidate pairs that pass, no unordered pair twice, and with distinct ids all of them |
| Blocking.OverlookedIff | internal/services/identity/detector.go:281-412 | a pair that shares no bucket and no close name still passes the scorer iff the countries are compatible and it has a short shared phone or the behavioural address evidence |
| Blocking.LosslessIff | internal/services/identity/detector.go:281-412 | up to 500 normalised customers the index loses nothing iff no skipped pair has such evidence |
| Blocking.UnsharedIff | internal/services/identity/detector.go:281-412 | a pair that shares no bucket, close names or not, passes the scorer iff the countries are compatible and it has unindexed evidence or a name that outweighs the objections |
| Blocking.NameCarriesBySignals | internal/services/identity/detector.go:281-412 | what outweighing the objections means, on signals: a similar name with a behavioural rule, or a rule 0.30 above the penalty, or no objection, or a fallback 0.30 above the penalty |
| Blocking.LosslessAtAnySizeIff | internal/services/identity/detector.go:281-412 | for any number of normalised customers, above 500 too, the index loses nothing iff no skipped pair is such a pair |
| Blocking.ShortPhoneIsOverlooked | internal/services/identity/detector.go:363-372 | a concrete pair with a shared five-digit phone that the index misses |
| Blocking.NormalizeInPlace | internal/services/identity/detector.go:126-131 | the in-place pass normalises every row and nothing else |
| Blocking.NormalizeAndScore | internal/services/identity/detector.go:126-134 | normalise and score through the index: every row is normalised, the pairs never repeat and are all brute-force pairs; with distinct ids they are all of those under the exact condition of Blocking.CompleteIff, which holds for at most 500 customers with behavioural rules off and no phone of one to six digits |
| Blocking.CompleteIff | internal/services/identity/detector.go:281-412 | with distinct ids the scored candidates hold every brute-force pair iff every compatible pair with unindexed evidence, or with a name that carries it, is a candidate |
| Buckets.BucketsBringTogether | internal/services/identity/detector.go:352-381 | whatever the number of customers: the same domain, the same last seven digits, and the same city, zip and street are compared |
| Buckets.CandidateIff | internal/services/identity/detector.go:352-409 | and nobody else but customers with close names at two domains, up to 500 of them; a customer without a domain is filed under a word that would do as one |
| Buckets.AddressBucketIsHouse | internal/services/identity/detector.go:422-441 | unless an entry contains the bar between them, the address bucket holds exactly the same city, zip and street |
| Buckets.UnitsAreDropped | internal/services/identity/detector.go:443-459 | a street with a unit behind any of the seven marks counts as the street alone |
| Buckets.IndexOfIsFirst | internal/services/identity/detector.go:453-455 | the search for a mark finds its first occurrence |
| Graph.AddEdge | internal/services/identity/cluster.go:97-126 | one more edge joins the classes of its ends and changes nothing else |
| Graph.ComponentsDisjoint | internal/services/identity/cluster.go:83-141 | different components have no member in common |
| Graph.ComponentsRefine | internal/services/identity/cluster.go:83-141 | fewer edges only split components |
| Graph.ComponentNeedsEdges | internal/services/identity/cluster.go:154-173 | a component of n members contains at least n - 1 edges |
| Graph.EdgesAtMostPairs | internal/services/identity/cluster.go:154-173 | n members have at most n(n-1)/2 unordered pairs |
| UnionFindForest.UnionFind.Find | internal/services/identity/cluster.go:16-25 | returns the representative, compresses the path without changing any class, and recurses at most log2 of the class size deep |
| UnionFindForest.UnionFind.Union | internal/services/identity/cluster.go:27-39 | joins exactly the two classes, keeping rank order and class sizes |
| UnionFindForest.UnionFind.Attach | internal/services/identity/cluster.go:32-38 | the final assignments of Union in full |
| UnionFindForest.FreshKeepsForest | internal/services/identity/cluster.go:17-20 | a new id is a forest of its own |
| UnionFindForest.CompressKeepsForest | internal/services/identity/cluster.go:21-23 | path compression keeps ranks increasing along parents and every class |
| UnionFindForest.AttachKeepsForest | internal/services/identity/cluster.go:32-38 | union by rank keeps ranks increasing along parents |
| UnionFindForest.AttachKeepsPopulous | internal/services/identity/cluster.go:32-38 | a root of rank k still stands for at least 2^k ids |
| Clustering.BestScores | internal/services/identity/cluster.go:84-93 | the first loop finds every member's best score |
| Clustering.ProximityGuard | internal/services/identity/cluster.go:116-123 | comparing with the two best scores is comparing with every pair that shares a member |
| Clustering.PartialAddressIsStrong | internal/services/identity/cluster.go:57-66 | a partial address with a high name similarity, and nothing else, makes an edge |
| SharedIdentity.HighScoreIsEdge | internal/services/identity/cluster.go:83-126 | since no score exceeds 0.98, a strongly supported pair from 0.882 on is an edge whatever else was scored |
| SharedIdentity.LowerPairIsEdgeIff | internal/services/identity/cluster.go:97-126 | the bound is sharp: next to a higher pair, a lower one is an edge exactly from 0.70 and nine tenths of the higher one on |
| Clustering.ThresholdBelowFloorIsIdle | internal/services/identity/cluster.go:102-112 | every threshold up to 0.70 gives the same graph, so the default of 0.65 never decides |
| SharedIdentity.SameIdentityScores | internal/services/identity/scorer.go:298-390 | the same email or phone gives 0.98, or what a behavioural rule gives, unless two countries differ |
| SharedIdentity.CertainPairsAreGrouped | internal/services/identity/detector.go:126-134 | with distinct ids, any two customers with the same email, or the same phone of seven digits or more, and not two countries end in one group, however many customers there are and whatever else is scored |
| SharedIdentity.RefusedAsWeakIff | internal/services/identity/cluster.go:57-101 | exactly which pairs scored 0.70 or more are refused as weak: a similar name and no more than a phone suffix, a similar local part or a common domain |
| Clustering.MergeAccepted | internal/services/identity/cluster.go:95-126 | after the edge loop two ids have the same representative iff accepted edges connect them |
| Clustering.CollectGroups | internal/services/identity/cluster.go:128-140 | the collecting loop lists every class of two or more once, whatever the map order |
| Clustering.ClusterPairs | internal/services/identity/cluster.go:83-141 | the result is exactly the connected components of size >= 2 of the accepted-edge graph, disjoint and without repeats |
| Clustering.OrderDoesNotMatter | internal/services/identity/cluster.go:83-141 | the accepted edges, and so the components, are the same for every permutation of the pair list |
| Clustering.HigherThresholdRefines | internal/services/identity/cluster.go:103-106 | raising the threshold only splits: each new cluster lies inside an old one |
| Clustering.ProximityDecay | internal/services/identity/cluster.go:116-123 | members joined by k accepted edges have best scores within a factor 0.9^k of each other |
| Clustering.ClusterEdgeCount | internal/services/identity/cluster.go:154-173 | a formed cluster holds between n - 1 and n(n-1)/2 scored pairs |
| Clustering.DensityBounds | internal/services/identity/cluster.go:154-173 | 2/n <= density <= 1 for every formed cluster of n >= 3 |
| Clustering.ClusterDensity | internal/services/identity/cluster.go:154-173 | the counting loop returns that density |
| Clustering.WeakestClusterEdge | internal/services/identity/cluster.go:182-204 | the lowest score inside the cluster, or 1 if there is none |
| Clustering.TopPairForCluster | internal/services/identity/detector.go:485-500 | the first of the highest-scoring pairs inside the cluster, or none iff no pair is inside |
| Clustering.FormedClusterHasTop | internal/services/identity/detector.go:485-500 | a formed cluster has a top pair; it reaches threshold and floor and is no weaker than the weakest edge |
| Risk.SafeIff | internal/services/identity/detector.go:526-600 | "safe" exactly for high confidence and nothing to object to |
| Risk.RiskyIff | internal/services/identity/detector.go:526-600 | "risky" exactly for a high conflict, a confidence below 0.75, or below 0.90 with a medium conflict, a high business risk or a missing anchor |
| Risk.WorseIsNeverMilder | internal/services/identity/detector.go:526-600 | worse conflicts, business risk or impact, less confidence or a lost anchor never make a verdict milder, together or alone |
| Risk.WeakLinkGuardIsMilderIff | internal/services/identity/detector.go:562-568 | the weak-link guard can make a verdict milder: exactly when it hides a missing anchor |
| Risk.DenserIsWorseIff | internal/services/identity/detector.go:567-587 | exactly when a denser cluster gets a worse verdict: it leaves the sparse branch in the middle band without its required anchor |
| Risk.StrongerWeakestEdgeIsWorseIff | internal/services/identity/detector.go:556-587 | exactly when a stronger weakest edge makes the verdict worse |
| Risk.ImprovementCanHurt | internal/services/identity/detector.go:526-598 | concrete inputs on which more density, and a stronger weakest edge, turn review into risky |
| Risk.SmallClusterNeverSparse | internal/services/identity/detector.go:567-577 | a formed cluster of at most 3 members is classified as if its density were 1 |
| Risk.DetectClusters | internal/services/identity/detector.go:126-136 | normalise, score and cluster in sequence: rows normalised, pairs tied to the brute-force pairs of the loaded customers both ways as in Blocking.NormalizeAndScore, and the clusters exactly the components of their accepted edges, with the density bounds |
| Conflicts.UniqueFieldValues | internal/services/intelligence/breakdown.go:222-236 | the distinct non-empty values in first-seen order; more than one iff two members disagree |
| Conflicts.FindOrderCountryMismatch | internal/services/intelligence/breakdown.go:240-257 | true iff the members' order addresses name two countries |
| Conflicts.FindDisabled | internal/services/intelligence/breakdown.go:171-176 | the loop stops with true iff some account is disabled |
| Conflicts.FindIdentityAnchor | internal/services/intelligence/breakdown.go:261-273 | the double loop stops with true iff two members share an email or a phone |
| Conflicts.AddRiskTags | internal/services/intelligence/breakdown.go:192-206 | the triple loop appends one item per risk tag, in order |
| Conflicts.AddRiskTag | internal/services/intelligence/breakdown.go:195-203 | a tag equals at most one risk word, so it adds at most one item |
| Conflicts.DetectConflicts | internal/services/intelligence/breakdown.go:126-219 | exactly the items the members justify, in order and with their multiplicity, and the highest of their severities |
| Conflicts.PhoneCodesNeverDisagree | internal/services/intelligence/breakdown.go:178-184 | the phone-code conflict is never raised: normalisation removes the plus sign the extraction looks for |
| Conflicts.PairwiseConflictSeverity | internal/services/identity/detector.go:607-625 | the double loop with early exit returns the worst severity of any two members |
| Conflicts.PairwiseAgainstAggregate | internal/services/identity/detector.go:607-625 | pairwise is at least as severe as the whole cluster, and equal iff the cluster is high anyway or no unanchored pair has mismatching order countries |
| Conflicts.UnanchoredClustersAgree | internal/services/identity/detector.go:607-625 | without a shared email or phone the two agree |
| Conflicts.AdjustedConflictSeverity | internal/services/identity/detector.go:653-679 | the worst severity among the conflicts the merchant has not opted out of |
| Conflicts.ReportedFlags | internal/services/intelligence/breakdown.go:126-220 | medium conflicts can be resolved, high ones block but for a mismatch of order countries, a tag conflict names its tag |
| Verdicts.RemainingSeverity | internal/services/identity/detector.go:653-679 | after the opt-outs the severity is high exactly when something still blocks, read off the members, and else medium exactly for two last names |
| Verdicts.ClassifyCluster | internal/services/identity/detector.go:136-246 | from members to verdict: a blocking conflict always gives "risky" and from 0.90 on nothing else does; two last names rule out "safe"; "safe" exactly when nothing blocks and every measure is in order |
| GroupHash.DecimalInjective | internal/services/identity/detector.go:471-481 | decimal rendering separates ids, negative ones included |
| GroupHash.DecimalDenotes | internal/services/identity/detector.go:471-481 | the text of an id reads as that id |
| GroupHash.LeastComesFirst | internal/services/identity/detector.go:471-481 | the least id comes first, a comma after it, then the others |
| GroupHash.PreimageInjective | internal/services/identity/detector.go:471-481 | the digested text determines the id list |
| GroupHash.SortedIsUnique | internal/services/identity/detector.go:471-481 | sorted lists with the same members are equal |
| GroupHash.PreimageIdentifiesMembers | internal/services/identity/detector.go:471-481 | two clusters have the same digested text iff they have the same members |
| GroupHash.GroupHashInput | internal/services/identity/detector.go:471-481 | the hashing loop digests exactly that text |
| DuplicateTable.UpsertIsGentle | internal/repository/duplicate_repo.go:41-63 | an upsert changes no status, no merged row and no row of another merchant or hash |
| DuplicateTable.UpsertKeepsOneLive | internal/db/migrations/003_create_duplicate_groups.up.sql:15-17 | an upsert keeps one non-merged row per merchant and hash |
| DuplicateTable.RejectedIff | internal/db/migrations/003_create_duplicate_groups.up.sql:15-17 | the unique index rejects a status change iff the row is merged and has a live sibling |
| DuplicateTable.ReachableTablesHaveOneLive | internal/repository/duplicate_repo.go:41-220 | every history of statements keeps one non-merged row per merchant and hash |
| DuplicateTable.UpsertPending | internal/repository/duplicate_repo.go:41-63 | an upsert adds its hash to the pending hashes unless a reviewed or dismissed row holds it |
| DuplicateTable.DuplicateRepo.CreateGroup | internal/repository/duplicate_repo.go:41-63 | insert, or refresh only the finding of the live row |
| DuplicateTable.DuplicateRepo.DeletePendingByMerchant | internal/repository/duplicate_repo.go:65-75 | removes the merchant's pending rows and no other, and returns their number |
| DuplicateTable.DuplicateRepo.FindByID | internal/repository/duplicate_repo.go:160-167 | the row, if it belongs to the merchant |
| DuplicateTable.DuplicateRepo.TryTransitionToMerged | internal/repository/duplicate_repo.go:185-201 | true iff the row was there and not merged; then it is merged |
| DuplicateTable.DuplicateRepo.DismissGroup | internal/repository/duplicate_repo.go:203-220 | unconditional, so it also un-merges; fails iff the index would break |
| DuplicateTable.DuplicateRepo.UpsertCluster | internal/services/identity/detector.go:247-269 | one cluster: its hash becomes pending unless it is held, a live row holds it, and no other row of this or any other merchant changes or appears; merchant, hash and status of every row survive |
| DuplicateTable.DuplicateRepo.UpsertClusters | internal/services/identity/detector.go:136-269 | the rebuild loop does so for all clusters, in any order, counts them, and touches no row of another merchant or another hash |
| DuplicateTable.DuplicateRepo.Rebuild | internal/services/identity/detector.go:64-269 | below two customers nothing changes; otherwise the pending hashes end up exactly the cluster hashes no reviewed or dismissed row holds, every cluster is stored, and apart from the cleared pending rows of this merchant only findings of its rows with cluster hashes change |
| Detection.RunDetection | internal/services/identity/detector.go:58-273 | the whole run: every loaded customer is normalised, the pairs are tied to the brute-force pairs both ways, afterwards the pending hashes are exactly those of the connected components of the accepted-edge graph that no reviewed or dismissed row holds, customers with the same email or long phone are in one component, every component is stored with its members and best score, and no other merchant and no reviewed or dismissed row of another hash is touched |
| Detection.Confidences | internal/services/identity/detector.go:139-143 | every cluster's confidence is its best score |
| Detection.GroupedHashesDiffer | internal/services/identity/detector.go:471-481 | the clusters of one run never share a hash |
| MergeRuns.AtMostOneSuccess | internal/services/merge/orchestrator.go:238-258 | over every interleaving that does not un-merge the group, at most one run on it returns success, and it is then merged; other rows may change as they like |
| MergeRuns.StepKeepsOneWinner | internal/repository/duplicate_repo.go:185-201 | every step that does not un-merge the group keeps at most one run that made its transition |
| MergeRuns.EveryRunIsDisciplined | internal/services/merge/orchestrator.go:131-258 | in every interleaving a run calls its executor at most once, for its own request, directly after the snapshot on basic and pro; a failed call is followed by no record and no transition |
| MergeRuns.MergedGroupStopsRun | internal/services/merge/orchestrator.go:131-142 | a run that loads its group at any time after it was merged never calls its executor, whatever follows |
| MergeRuns.SuccessIsEarned | internal/services/merge/orchestrator.go:180-258 | success implies a successful executor call and the run's own transition |
| MergeRaces.AnotherRecordIff | internal/services/merge/orchestrator.go:212-247 | one record per group does not hold: in every reachable state with a record for the group, another can be written, without un-merging, exactly when the group is live or some run on it is between its load and its record |
| MergeRaces.AnotherCallIff | internal/services/merge/orchestrator.go:180-247 | nor does one executor call per group: after a call on the group another run can call too, without un-merging, exactly when the group is live or another run on it is between its load and its call |
| MergeRaces.TwoRecordsPossible | internal/services/merge/orchestrator.go:226-247 | two racing runs on any live group can both write a record |
| MergeRaces.UnmergeAllowsTwoSuccesses | internal/repository/duplicate_repo.go:203-220 | from every reachable state in which a run has made the transition and the row still exists, dismissing the row lets that run and another both succeed |
| MergeRaces.ReachableOneLive | internal/services/merge/orchestrator.go:116-258 | runs keep one non-merged row per merchant and hash |
| MergeRuns.LoadCacheCustomers | internal/services/merge/orchestrator.go:261-279 | the cached customers in the wanted order, or nothing if one is missing |
| MergeRuns.ExecuteMerge | internal/services/merge/orchestrator.go:116-258 | undisturbed, the sequential code calls the executor, writes its record, merges the group and succeeds exactly when the answers allow it; and it is one run of the machine |
| MergeRuns.MergeLoaded | internal/services/merge/orchestrator.go:144-159 | the part from the cache look-up on: its exact events, outcome and table |
| MergeRuns.MergeValidated | internal/services/merge/orchestrator.go:161-194 | the part from the snapshot on |
| MergeRuns.MergeSnapshotted | internal/services/merge/orchestrator.go:180-194 | the part from the executor call on |
| MergeRuns.MergeExecuted | internal/services/merge/orchestrator.go:212-258 | the part from the record on |
| JobStore.RemoveFirstCounts | internal/queue/queue.go:44-50 | an acknowledge takes exactly one copy, if there is one |
| JobStore.Queue.Push | internal/queue/queue.go:22-27 | the new copy goes to the head of the main list |
| JobStore.Queue.Pop | internal/queue/queue.go:31-41 | the tail of the main list moves to the head of the processing list in one step |
| JobStore.Queue.Acknowledge | internal/queue/queue.go:44-50 | the first copy leaves the processing list |
| JobStore.Queue.Requeue | internal/queue/queue.go:54-69 | ends with main = processing ++ main, processing empty, and returns the number moved |
| JobStore.JobRepo.Create | internal/repository/job_repo.go:32-46 | a fresh queued row |
| JobStore.JobRepo.FindByID | internal/repository/job_repo.go:48-55 | the row, if there is one |
| JobStore.JobRepo.UpdateStatus | internal/repository/job_repo.go:57-75 | sets the status of that row only |
| JobStore.JobRepo.IncrementRetries | internal/repository/job_repo.go:77-86 | adds one retry to that row only |
| JobStore.JobRepo.ListStuckJobs | internal/repository/job_repo.go:88-99 | exactly the stale processing rows, each once |
| WorkerProtocol.StepConserves | internal/queue/queue.go:22-50 | every step keeps pushes = copies in both lists + effective acknowledges |
| WorkerProtocol.StepBalances | internal/queue/queue.go:31-50 | every step keeps one processing copy per unacknowledged holder, dead or alive |
| WorkerProtocol.StepCovers | internal/services/jobs/worker.go:100-167 | every step keeps each unfinished job with a copy, a holder, its dispatcher or the sweep |
| WorkerProtocol.ReachableIsSound | internal/services/jobs/worker.go:75-167 | all three hold after every interleaving of dispatchers, workers, crashes and sweeps |
| WorkerProtocol.NoJobIsLost | internal/services/jobs/worker.go:100-167 | in every interleaving a queued or processing job has a copy in a list, or its dispatcher or the sweep is between row write and push |
| WorkerProtocol.CopiesAreConserved | internal/queue/queue.go:22-50 | in every interleaving the two counts are exact for every job |
| WorkerExclusion.StepKeepsOrder | internal/services/jobs/worker.go:100-167 | every step keeps the permission to run a job in at most one place, with the row queued outside workers |
| WorkerExclusion.ReachableIsOrderly | internal/services/jobs/worker.go:75-167 | so it is after every interleaving in which the sweep re-queues only jobs whose worker died |
| WorkerExclusion.MutualExclusion | internal/services/jobs/worker.go:119-142 | then no two workers are ever inside Process for the same job, although a retry pushes before it acknowledges |
| WorkerExclusion.StrandedForGood | internal/repository/job_repo.go:88-99 | a queued row without copy or live handler stays so under every step: the sweep lists processing rows only |
| WorkerExclusion.CrashAfterPopStrands | internal/services/jobs/worker.go:87-119 | a worker that dies between pop and the status write strands its job |
| JobRecovery.EndsIffNotStranded | internal/services/jobs/worker.go:75-167 | an unfinished job can still be completed or failed, without crashes, exactly when it is not stranded |
| JobRecovery.StrandedForever | internal/repository/job_repo.go:88-99 | a stranded job stays stranded over every continuation |
| JobRecovery.LostPushStrands | internal/services/jobs/dispatcher.go:58-65 | a push that fails after the row was created strands the job in every orderly state |
| JobRecovery.LostLookupStrands | internal/services/jobs/worker.go:108-113 | so does acknowledging a queued job whose row could not be read |
| JobRecovery.LostSweepStrands | internal/services/jobs/worker.go:160-165 | so does a sweep that is lost between queuing the row again and pushing it |
| JobRecovery.UnguardedSweepBreaksExclusion | internal/services/jobs/worker.go:154-165 | whenever a worker is inside Process, a sweep that re-queues its job can put a second one inside |
| JobRecovery.ExclusionCanBreak | internal/services/jobs/worker.go:75-167 | so from the empty system two workers can be inside Process for any job |
| ExclusionGuard.ClashIffHarmful | internal/services/jobs/worker.go:146-167 | the exact guard: a sweep opens a way to two workers inside Process for one job iff it lists a job that a live worker may still run, that is, has popped and not finished, or failed with a retry left |
| ExclusionGuard.HarmlessSweepsExclude | internal/services/jobs/worker.go:100-167 | with that weaker guard exclusion holds over every interleaving, crashes anywhere |
| ExclusionGuard.StepStaysInOrder | internal/services/jobs/worker.go:100-167 | every step under that guard keeps at most one permit per job and no waiting job marked as processing |
| RetryLimit.RetryBound | internal/services/jobs/worker.go:122-131 | over every guarded interleaving, crashes anywhere, retries exceed three by at most the deaths between the count that reaches three and the write of failed; failed needs three |
| RetryLimit.RetryLimitHolds | internal/services/jobs/worker.go:122-131 | so retries never pass three, and failed means exactly three, as long as no worker dies between a count that uses up the tries and the status write |
| RetryLimit.RunsBound | internal/services/jobs/worker.go:100-142 | over the same interleavings Process is entered at most three times plus once per run whose worker dies before its outcome is in the row (neither completed nor counted), or between a count that uses up the tries and the status write |
| RetryLimit.BoundsAreReached | internal/services/jobs/worker.go:100-142 | both bounds are reached, together, for all numbers of such deaths |
| CrashLimits.LimitBreaksIff | internal/services/jobs/worker.go:122-131 | the exact condition: after a history without one, a crash lets retries pass three later, with guarded sweeps and no further crash, iff the worker dies between a count that uses up the tries and the status write |
| CrashLimits.RunsExceedIff | internal/services/jobs/worker.go:100-142 | likewise a crash lets Process be entered a fourth time iff it loses a run in the sense of RetryLimit.RunsBound |
| RetryLimit.StepKeepsAccounted | internal/services/jobs/worker.go:100-142 | every step keeps entries into Process within counted failures, lost runs and the one still going on |
| RetryLimit.TerminalStays | internal/services/jobs/worker.go:115-119 | under guarded sweeps completed and failed never change again, crashes or not; what an unguarded sweep does is FinalStatus.RewriteIffUnguarded |
| FinalStatus.RewriteIffUnguarded | internal/services/jobs/worker.go:146-167 | the exact condition: a sweep opens a way, without crashes, to a completed or failed row that is later written anew iff it lists a job that some live worker still handles |
| FinalStatus.CompletedIsQueuedAgain | internal/services/jobs/worker.go:115-119 | so the guard that excludes two runs at once does not keep final statuses: from the empty system, with harmless sweeps only, a job is completed and then queued and pushed again |
| RetryLimit.StepKeepsTame | internal/services/jobs/worker.go:100-167 | every guarded step keeps each row in step with the worker that handles it and with the sweep |
| RetryLimit.StepKeepsLimited | internal/services/jobs/worker.go:122-131 | every step raises the bound only by a lost count |
| JobLifecycle.CallKeepsLedger | internal/services/jobs/worker.go:100-142 | every call keeps status, retries, starts and failures in step with the worker's position |
| JobLifecycle.ReachableLedger | internal/services/jobs/worker.go:100-142 | so they are after every interleaving without crashes and sweeps |
| JobLifecycle.ThreeTries | internal/services/jobs/worker.go:122-131 | Process is entered at most three times, retries equals the failures, failed comes exactly after the third |
| JobLifecycle.RestMeansDone | internal/services/jobs/worker.go:100-142 | at rest every job is completed or failed and both lists are empty |
| JobLifecycle.CallLowersPotential | internal/services/jobs/worker.go:100-142 | every call lowers the work still owed |
| JobLifecycle.WorkIsBounded | internal/services/jobs/worker.go:100-142 | so without new jobs only that many steps are possible, and every dispatched job ends |
| WorkerCode.Dispatch | internal/services/jobs/dispatcher.go:58-71 | row, then push: a fresh queued row and one copy, by the dispatcher's own two steps |
| WorkerCode.ProcessJob | internal/services/jobs/worker.go:100-142 | the sequential code settles the row, pushes again iff a try is left, drops one copy, and makes only its worker's own steps |
| WorkerCode.RunOnce | internal/services/jobs/worker.go:87-96 | pop and process: the tail job is settled and leaves both lists unless it runs again |
| WorkerCode.RunRecoverySweep | internal/services/jobs/worker.go:154-165 | exactly the stale processing rows are queued again, retries kept, and pushed in order, by the sweep's own steps |
| WorkerCode.CodeKeepsSound | internal/services/jobs/worker.go:75-167 | whatever every step keeps, each of these methods keeps |

## Left out

- IEEE rounding: scores and thresholds are exact reals.
- JSON decoding, regular-expression engines, Unicode tables and SHA-256: addresses are taken as decoded, and the group hash stops at the text that is digested.
- Letter case beyond ASCII, invalid UTF-8, and combining marks outside the basic block.
- HTTP handlers, authentication, the Shopify and WordPress clients and synchronisation: the merge executor and snapshots succeed or fail nondeterministically.
- Transient errors of Redis or the database in the job protocol: what a failed push after row creation, or a failed look-up followed by an acknowledge, leads to is stated in `JobRecovery` alone.
- A crash of the dispatcher or of the sweep is not a step of the machine, only workers crash; what losing either before its push leads to is JobRecovery.LostPushStrands and JobRecovery.LostSweepStrands. One sweep runs at a time.
- Wall-clock time: "stuck for ten minutes" is any choice among the processing rows.
- Detect-job debounce (`internal/services/jobs/dispatcher.go:35-44`): not modelled.
- JobLifecycle.ThreeTries: stated without crashes and sweeps; with them the exact bounds are RetryLimit.RetryBound and RetryLimit.RunsBound.
- RetryLimit.TerminalStays: stated for sweeps that re-queue only jobs whose worker died; the exact condition is FinalStatus.RewriteIffUnguarded.
- WorkerExclusion.MutualExclusion: stated for sweeps that re-queue only jobs whose worker died; the weakest guard is in ExclusionGuard.ClashIffHarmful.
- MergeRuns.AtMostOneSuccess: stated for runs that do not un-merge the group, because otherwise it is false (MergeRaces.UnmergeAllowsTwoSuccesses).
- MergeRuns.ExecuteMerge: the answers of cache, validation, snapshot, executor and store are parameters; loading the merchant and its token before the group, post-merge validation, usage counters and logging are not modelled.
- Buckets.UnitsAreDropped: stated for streets whose unit marks stand at one place; with several the code cuts in the order of its list of marks.
- GroupHash.GroupHashInput: sorting is a function, not the in-place library sort, and the digest is outside.
- Normalization.NormalizeEmailIdempotent: letter case is folded for ASCII only.
- Normalization.NormalizeNameIdempotent: letter case is folded for ASCII only, so the Kelvin sign and the dotted capital I are dropped, not folded.
- Normalization.StripMarksLoop: combining marks outside the basic block are not known.
- DuplicateTable.DuplicateRepo.CreateGroup: risk level, readiness and report columns are not part of the table model.
- DuplicateTable.DuplicateRepo.TryTransitionToMerged: the merge time is not part of the table model.
- DuplicateTable.DuplicateRepo.DismissGroup: dismissal time and reason are not part of the table model.
- DuplicateTable.DuplicateRepo.UpsertCluster: risk and report columns are not part of the table model.
- JobStore.JobRepo.Create: merchant, type and payload columns are not part of the row model.
- JobStore.JobRepo.UpdateStatus: result and update time are not part of the row model.
- JobStore.JobRepo.IncrementRetries: the update time is not part of the row model.
- JobStore.JobRepo.ListStuckJobs: which rows are old enough is a parameter.
- WorkerCode.Dispatch: the debounce is not modelled; a failing push is JobRecovery.LostPushStrands.
- WorkerCode.ProcessJob: an id that does not parse is not modelled.
- Risk classification takes anchor, business risk and impact as inputs; their computation, reasons, summaries and intelligence reports are not modelled. The pairwise severity at `internal/services/identity/detector.go:222-225` never reaches the classification.
- The columns `business_risk_level` and `impact_score`, and the confirmed-by-user flag, are not part of the table model.
- Choice of the primary customer.
- Scheduler, notifications, metrics, billing tables and settings merging: easy or textual.
