# dc-bills-tracker, modelled in Dafny

This project models the data processing of the DC bills tracker. The
tracker is a static site plus a set of Node scripts. They keep
`bills.json`, a hand-curated list of congressional bills that concern the
District of Columbia, up to date against the Congress.gov API. The model
covers:

- **The bill-number parser** (`parseBillNumber`, `normalizeBillId`,
  `formatBillType`) and its copies in the monitor, the test script and the
  two React components. The regular expression
  `(H.R.|S.|…)\s*(\d+)` with the `i` flag is modelled as a leftmost,
  case-insensitive scan over the six literal prefixes (module `Scan`). The
  `includes` cascade then runs on the lower-cased prefix.
- **Discovery** (`scripts/discover-bills.js`):
  - the tracked-id set;
  - the committee channel and the paginated title scan, each building an
    insertion-ordered `Map` (module `Ordered`: a key sequence plus a
    Dafny `map`);
  - the merge of the two channels;
  - the tracked filter;
  - the additive relevance score with its reasons;
  - the three tiers;
  - the bill record built for an auto-added candidate, and its append to a
    freshly read copy of the data.
- **Monitoring** (`scripts/monitor-bills.js`): the action-flag loop, the
  status cascade, the priority cascade, the changes/errors loop over all
  bills, and the 30-entry history.
- **Dataset tooling**: the restructuring into bills, riders and support
  bills; the passed/pending statistics; the sponsor lookup generated from
  the roster CSV; the roll-call extraction and passage filters of the two
  debugging scripts; and the category grouping and parse counters of the
  test script.
- **The pure parts of the site**:
  - the category and search filters, the grouping and the filter toggles
    of `App.jsx`;
  - the CSV export of `DownloadButton.jsx`;
  - the recent-activity derivation, sort and date labels of
    `RecentActivity.jsx`;
  - the Congress.gov link, CSS classes and number separators of
    `BillCard.jsx`;
  - the sponsor badge, state abbreviation and date splitting of
    `PassedBillsSection.jsx`.

**Model design**

- Everything the scripts read from the network or the disk is an input:
  - API responses are records or functions from request to response;
  - `bills.json` is a `Data` value;
  - the CSV roster is a string;
  - "today" is a date string or a day number.
- The regular expressions other than the two literal-alternative ones are
  predicates in a `Patterns` record. The model proves what the code does
  with their answers, whatever they are.
- Loops that update variables are methods with loop invariants. Each is
  proved equal to a recursive specification function, and the properties
  are lemmas about that function.
- Functions built from expressions alone are Dafny functions.

The source has three `parseBillNumber` functions and two `getCongressLink`
functions. They are modelled as follows:

- `BillNumber.ParseBillNumber` is the discovery parser
  (scripts/discover-bills.js), which returns a type and a number.
- The monitor's parser (scripts/monitor-bills.js) and the test script's
  parser (scripts/test-monitor.js) are identical to each other. They use
  the same regex and the same `includes` cascade as the discovery parser,
  and also return the chamber. `Monitor.ParseWithChamber` models both, and
  `Monitor.ParseWithChamberSpec` proves that it agrees with
  `BillNumber.ParseBillNumber`.
- The link builders of `BillCard.jsx` and `PassedBillsSection.jsx` are
  identical to each other. `BillCard.GetCongressLink` models both.

## Model

| member | source | states |
|---|---|---|
| BillNumber.ParseBillNumber | scripts/discover-bills.js:63-78 | a parsed number always has one of the six type codes (never the empty code) and a non-empty all-digit number |
| BillNumber.ParseBillNumberMatches | scripts/discover-bills.js:63-78 | the parser returns null exactly when no prefix followed by digits occurs anywhere; otherwise it returns the code of the leftmost match's prefix and that match's digits |
| BillNumber.ParsedNumberIsMaximal | scripts/discover-bills.js:64-67 | the number is the whole digit run after the prefix: the character after it is not a digit |
| BillNumber.ClassifyPrefix | scripts/discover-bills.js:70-75 | every one of the six prefixes, in any letter case, gets its own code from the `includes` cascade, although "h.j.res." also contains "s." |
| BillNumber.NormalizeBillId | scripts/discover-bills.js:80-83 | the id is the type code followed by the number, nothing else |
| BillNumber.NormalizeInjective | scripts/discover-bills.js:80-83 | two parsed numbers with the same normalised id are the same type and number |
| BillNumber.FormatBillType | scripts/discover-bills.js:86-96 | each of the six codes is shown as its prefix; any other code is upper-cased |
| BillNumber.FormatParseRoundTrip | scripts/discover-bills.js:63-96 | parsing the display form "prefix number" of any code and digit string gives back that code and number |
| BillNumber.MatchOfDisplayForm | scripts/discover-bills.js:64 | the display form "prefix number" is found by the regex at its start, with that prefix and the whole number |
| DiscoverBills.BuildTrackedSet | scripts/discover-bills.js:125-148 | the set holds exactly the ids of all bills, riders and support bills (a missing array counts as empty) and the normalised ids of their parseable bill numbers |
| DiscoverBills.CollectIds | scripts/discover-bills.js:134-145 | the loop over all records collects the ids tracked by the records seen so far |
| DiscoverBills.AddBillIds | scripts/discover-bills.js:136-144 | one record adds its id and the ids of its parseable numbers, and nothing else |
| DiscoverBills.AddNumberIds | scripts/discover-bills.js:139-144 | the inner loop adds exactly the ids of the parseable numbers |
| DiscoverBills.NumberIdsIff | scripts/discover-bills.js:139-144 | an id comes from a record's numbers exactly when one of the numbers parses to it |
| DiscoverBills.TrackedByBillIff | scripts/discover-bills.js:136-144 | a record tracks an id exactly when it is the record's id or the id of one of its numbers |
| DiscoverBills.TrackedSoFarAll | scripts/discover-bills.js:125-148 | after all records, the collected set is exactly the set of ids some record tracks |
| DiscoverBills.TrackedSoFarIff | scripts/discover-bills.js:134-145 | after the first i records, an id is in the set exactly when one of those records tracks it |
| DiscoverBills.DiscoverFromCommittees | scripts/discover-bills.js:181-223 | the channel's map is the result of absorbing, committee by committee and bill by bill, every listed bill of the 119th Congress with a type and a number; a failed request skips its committee |
| DiscoverBills.ReadListing | scripts/discover-bills.js:196-215 | one committee listing absorbs its hits in listing order |
| DiscoverBills.ReadListingBill | scripts/discover-bills.js:198-214 | a bill of another congress, or without a type or number, leaves the map unchanged; any other bill is absorbed under its lower-cased, normalised id |
| DiscoverBills.CommitteeHitsWellFormed | scripts/discover-bills.js:181-214 | every hit of the channel is the hit of one listed bill of the 119th Congress, in the listing of a committee whose request succeeded; it has a non-empty type and number, an id that is their normalised form, and that committee's name as its only source |
| DiscoverBills.ListingHitsWellFormed | scripts/discover-bills.js:198-211 | each hit of a listing is the hit of one of the listing's own bills, and that bill is of the 119th Congress; it names that committee as its only source |
| DiscoverBills.DiscoverFromTitleScan | scripts/discover-bills.js:228-294 | the scan's map keeps the first hit of each id over all pages of all four bill types; it makes at most 5 requests per bill type |
| DiscoverBills.ScanBillType | scripts/discover-bills.js:235-289 | the pagination loop for one type reads exactly the pages of the specification and makes between 1 and 5 requests |
| DiscoverBills.ScanPage | scripts/discover-bills.js:240-288 | one page either ends the scan (failed request, empty page, short page, offset 1000 or more) or continues it at the next offset |
| DiscoverBills.ReadTitles | scripts/discover-bills.js:257-277 | a page keeps, in order and first hit winning, the bills with a number whose title matches a positive pattern and no negative one |
| DiscoverBills.TitleHitsIff | scripts/discover-bills.js:257-277 | a hit comes from a page exactly when some bill of that page produces it |
| DiscoverBills.PagesFromBound | scripts/discover-bills.js:279-284 | from any page-aligned offset, at most (1000 - offset)/250 + 1 pages are read, so at most 5 from offset 0 |
| DiscoverBills.ScanFromPages | scripts/discover-bills.js:239-289 | scanning page by page is the same as absorbing all hits of the pages read |
| DiscoverBills.TitleScanHitsFold | scripts/discover-bills.js:232-290 | the scan over all types is one first-hit-wins fold over the hits of all types |
| DiscoverBills.LastPage | scripts/discover-bills.js:280-281 | a short page, or one read at offset 1000 or more, is the last page read |
| DiscoverBills.FullPage | scripts/discover-bills.js:282-284 | a full page below offset 1000 is followed by the scan from the next offset |
| DiscoverBills.MergeChannels | scripts/discover-bills.js:592-612 | the merged map is the committee map absorbed with the title map's entries in their order |
| DiscoverBills.AbsorbEntries | scripts/discover-bills.js:596-602 | each `for … of` merge loop absorbs the channel's entries in insertion order |
| DiscoverBills.FilterTracked | scripts/discover-bills.js:619-630 | the new candidates are the untracked entries, unchanged and in their order; the tracked count plus the new size is the merged size |
| Candidates.AbsorbEntry | scripts/discover-bills.js:205-214 | absorbing a hit for a known id appends the hit's sources; a new id stores the hit's record; other ids are untouched |
| Candidates.AbsorbAllEntry | scripts/discover-bills.js:205-214 | after a sequence of hits, an id is present exactly when it was before or some hit had it; a known record gains all later sources in order; a new record is the first hit's record with all its hits' sources |
| Candidates.AbsorbAllFirstEntry | scripts/discover-bills.js:268-275 | with first-hit-wins updates, a known record is unchanged and a new one is its first hit's record |
| Candidates.AbsorbAllKeys | scripts/discover-bills.js:205-214 | the key order gains the new ids in order of first appearance |
| Candidates.AbsorbAllFirstKeys | scripts/discover-bills.js:268-275 | the same key order holds for first-hit-wins updates |
| Candidates.AbsorbAllValid | scripts/discover-bills.js:205-214 | absorbing keeps every id exactly once in the key order |
| Candidates.AbsorbAllFirstValid | scripts/discover-bills.js:268-275 | first-hit-wins updates keep every id exactly once in the key order |
| Candidates.AbsorbAllAppend | scripts/discover-bills.js:596-612 | absorbing two batches one after the other is absorbing their concatenation |
| Candidates.MergedSpec | scripts/discover-bills.js:592-612 | the merge holds each id of either channel once: committee ids first, then the new title-scan ids in order; on a collision the committee record is kept with the title-scan sources appended |
| Candidates.Rebuild | scripts/discover-bills.js:596-602 | absorbing a well-formed map's entries into an empty map rebuilds it |
| Candidates.NewKeysOfEntries | scripts/discover-bills.js:606-612 | the ids a channel adds are its ids outside the map, in its order |
| Candidates.SourcesOfEntries | scripts/discover-bills.js:606-612 | a channel's sources for an id are that id's record's sources |
| Ordered.PutValid | scripts/discover-bills.js:205-211 | `Map.set` stores the value, keeps the other entries and adds the key at the end only when it is new |
| DcPatterns.AnyTestIff | scripts/discover-bills.js:263-264 | `some(p => p.test(title))` holds exactly when one of the patterns accepts the title |
| Relevance.SummaryPoints | scripts/discover-bills.js:477 | the summary term is min(5 × mentions, 20): positive exactly when there is a mention |
| Relevance.ScoreRelevance | scripts/discover-bills.js:440-502 | the score and the reasons are the sum of the weights and the list of reasons of the rules that fire, in evaluation order |
| Relevance.Award | scripts/discover-bills.js:449-499 | each `if` adds its rule's weight and reason exactly when the rule fires |
| Relevance.CountMentions | scripts/discover-bills.js:472-476 | the mention counter sums the match counts of all positive patterns |
| Relevance.TriggeredSums | scripts/discover-bills.js:440-502 | the score is the sum of the eight rules' contributions and the reasons their concatenation |
| Relevance.ReasonsSpec | scripts/discover-bills.js:440-502 | there is one reason per fired rule, each the rule's own text |
| Relevance.ScoreAppend | scripts/discover-bills.js:440-502 | score, reasons and rule kinds are additive over concatenated rule lists |
| Relevance.TriggeredSpec | scripts/discover-bills.js:449-499 | each rule fires exactly under its condition: +30 for "District of Columbia" in the title, +20 for another DC reference only when the +30 rule did not fire, subjects, committees, summary mentions, home rule, the negative signal, and +5 exactly when there is more than one source |
| Relevance.TriggeredOrder | scripts/discover-bills.js:440-502 | the fired rules appear in evaluation order, each at most once (so the −30 applies at most once) |
| Relevance.TitleRulesExclusive | scripts/discover-bills.js:450-456 | the +30 and +20 title rules never both fire |
| Relevance.ScoreBounds | scripts/discover-bills.js:440-502 | every score lies between −30 and 110 |
| Relevance.TypeSlug | scripts/discover-bills.js:513-521 | each of the six codes maps to its congress.gov slug; other codes are kept |
| Relevance.CongressLinkSpec | scripts/discover-bills.js:521-522 | the link of a known code is the 119th-congress URL with the code's slug and the number |
| Relevance.DescriptionSpec | scripts/discover-bills.js:524-531 | the description is "Auto-discovered." when there is no summary; otherwise it adds a space and the summary, cut to 300 characters with "..." only when longer |
| Relevance.BuildBillEntrySpec | scripts/discover-bills.js:507-561 | a new record's id is type+number; its single display number parses back to that id; it is provisional and auto-discovered, has the score, no stage, all flags false, and the slugged link |
| DiscoverReport.TierRanges | scripts/discover-bills.js:682-691 | auto-add is a score of 40 or more, review 20 to 39, skipped below 20 |
| DiscoverReport.TierCandidates | scripts/discover-bills.js:650-692 | the three lists are the evaluated candidates of each tier, in candidate order |
| DiscoverReport.Evaluate | scripts/discover-bills.js:658-680 | a candidate whose details are null yields no entry; otherwise one scored entry |
| DiscoverReport.EvaluatedIff | scripts/discover-bills.js:658-662 | an entry is evaluated exactly when its id is a new candidate whose details were fetched |
| DiscoverReport.EvaluatedSize | scripts/discover-bills.js:650-692 | there are never more entries than candidates |
| DiscoverReport.TiersPartition | scripts/discover-bills.js:682-691 | every evaluated entry lands in exactly one tier, and each tier holds only scores of its range |
| DiscoverReport.TiersSplit | scripts/discover-bills.js:682-691 | the three tiers together are a permutation of the evaluated entries |
| DiscoverReport.BucketTier | scripts/discover-bills.js:682-691 | every entry of a tier has a score of that tier |
| DiscoverReport.AppendAutoAdds | scripts/discover-bills.js:733-746 | a dry run or an empty auto-add list writes nothing; otherwise the reread data gets the new records appended to `bills` and today as `lastUpdated`; a reread without `bills` crashes |
| DiscoverReport.PushRecords | scripts/discover-bills.js:739-743 | the loop appends one built record per auto-add entry, in order |
| DiscoverReport.NewRecordsIndex | scripts/discover-bills.js:739-743 | the k-th appended record is built from the k-th auto-add entry |
| DiscoverReport.NewRecordsIds | scripts/discover-bills.js:739-743 | each appended record has its entry's normalised id and score |
| DiscoverReport.WrittenKeepsRecords | scripts/discover-bills.js:736-746 | the written data keeps every earlier bill in place, riders, support bills and categories unchanged, and grows by the number of auto-adds |
| DiscoverReport.WrittenTracksAdded | scripts/discover-bills.js:733-746 | after the write every id tracked before is still tracked, and every auto-added id is tracked |
| Monitor.ClassifyWithChamberAgrees | scripts/monitor-bills.js:32-53 | the monitor's cascade gives the same code as the discovery parser's, and its chamber is the chamber of that code |
| Monitor.ParseWithChamberSpec | scripts/monitor-bills.js:26-56 | the monitor's parser fails exactly when the discovery parser does, agrees on type and number, and gives "house" for hr/hjres/hconres and "senate" for s/sjres/sconres |
| Monitor.AnalyzeActions | scripts/monitor-bills.js:99-113 | the `forEach` over the actions computes the three flags of the specification |
| Monitor.SeenSpec | scripts/monitor-bills.js:99-113 | a flag is set exactly when some action satisfies its test |
| Monitor.FlagsOfSpec | scripts/monitor-bills.js:99-113 | hearing comes from the lower-cased text or type; markup from "markup" or "ordered to be reported" in the text; floor vote from "floor", "vote", "passed" or "failed" in the text |
| Monitor.FlagsOrderFree | scripts/monitor-bills.js:99-113 | the flags do not depend on the order of the actions |
| Monitor.SeenConcat | scripts/monitor-bills.js:99-113 | a flag over two runs of actions is set exactly when it is set over either |
| Monitor.SimplifiedStatusSpec | scripts/monitor-bills.js:159-180 | the first matching label wins: enactment over passage, both chambers needing both phrases, one chamber exactly one phrase, then committee, introduced, unknown |
| Monitor.PriorityTiers | scripts/monitor-bills.js:183-226 | high for a manual or FreeDC override, any floor vote, markup or hearing, or 20 cosponsors; medium for 5 cosponsors or a bill in committee; watching for an introduced bill; low otherwise |
| Monitor.PrioritySource | scripts/monitor-bills.js:183-226 | the source is "manual" or "freedc" only for the two override rules, and "legislative" for every other rule |
| Monitor.CosponsorsMonotone | scripts/monitor-bills.js:207-225 | with all else fixed, more cosponsors never lower the tier (high > medium > watching > low) |
| Monitor.FetchBillStatus | scripts/monitor-bills.js:59-156 | the status of a bill number is the one the specification computes from the three responses |
| Monitor.StatusOfSpec | scripts/monitor-bills.js:59-156 | a status exists exactly when the number parses and the bill request succeeds; each of the hearing, markup and floor-vote flags holds exactly when some action passes that flag's test (all false when the actions request failed); the label comes from the status cascade |
| Monitor.MonitorBills | scripts/monitor-bills.js:229-289 | the loop crashes exactly when a bill has no number; otherwise the changes and errors are those of checking each bill in order |
| Monitor.CheckAllStep | scripts/monitor-bills.js:246-289 | each iteration appends the outcome of the next bill |
| Monitor.CheckAll | scripts/monitor-bills.js:246-289 | every bill gets exactly one outcome |
| Monitor.CheckAllIndex | scripts/monitor-bills.js:246-289 | the k-th outcome is the check of the k-th bill |
| Monitor.ChangesErrorsSplit | scripts/monitor-bills.js:254-285 | every bill contributes exactly one change or one error |
| Monitor.UnparseableIsError | scripts/monitor-bills.js:60-64 | a bill whose first number does not parse is reported as an error with that number |
| Monitor.AppendHistory | scripts/monitor-bills.js:362-379 | the history has length min(old + 1, 30); the new run is last, and the rest is the most recent suffix of the old history |
| TestMonitor.DisplayFormParses | scripts/test-monitor.js:24-54 | every prefix followed by a space and digits parses to its code, number and chamber |
| TestMonitor.SampleHouseBill | scripts/test-monitor.js:60-77 | "H.R. 5214" gives hr, 5214, house |
| TestMonitor.SampleSenateBill | scripts/test-monitor.js:60-77 | "S. 1234" gives s, 1234, senate |
| TestMonitor.SampleHouseJoint | scripts/test-monitor.js:60-77 | "H.J.Res. 45" gives hjres, 45, house |
| TestMonitor.SampleSenateConcurrent | scripts/test-monitor.js:60-77 | "S.Con.Res. 12" gives sconres, 12, senate |
| TestMonitor.GroupByCategory | scripts/test-monitor.js:88-95 | the grouping loop computes the specification's grouping |
| TestMonitor.ByCategorySpec | scripts/test-monitor.js:88-95 | there is a group exactly for each category some bill has, and each group is that category's bills in order |
| TestMonitor.ByCategoryCounts | scripts/test-monitor.js:88-99 | the group sizes sum to the number of bills |
| TestMonitor.HighlightedBills | scripts/test-monitor.js:103 | the highlighted list is exactly the floor-vote bills, in order |
| TestMonitor.Primaries | scripts/test-monitor.js:118 | each bill's primary number is its first number |
| TestMonitor.CountParses | scripts/test-monitor.js:113-127 | the loop crashes exactly when a bill has no number; otherwise it counts the primary numbers that parse and that fail, and lists the failing ones in order |
| TestMonitor.CountsCoverAll | scripts/test-monitor.js:113-127 | successes plus failures equal the number of bills, and every listed failure really does not parse |
| BillStructure.IncludesIff | scripts/update-bill-structure.js:87 | `includes` is membership |
| BillStructure.UpdateStructure | scripts/update-bill-structure.js:72-135 | the new data has today's date, the input categories, and the restructured regular bills, riders and support bills in input order; a missing `bills` crashes |
| BillStructure.Sort | scripts/update-bill-structure.js:76-126 | one iteration finds the bill's role and its restructured record |
| BillStructure.PlacedStep | scripts/update-bill-structure.js:76-126 | each bill is appended to its own role's list only |
| BillStructure.PlacedInOrder | scripts/update-bill-structure.js:72-126 | each list is the bills of that role, in input order, restructured |
| BillStructure.RolesPartition | scripts/update-bill-structure.js:72-126 | every bill has exactly one role: the three role lists are a permutation of the input |
| BillStructure.PlacedSizes | scripts/update-bill-structure.js:72-126 | the three list lengths sum to the input length |
| BillStructure.RolePrecedence | scripts/update-bill-structure.js:87-111 | the rider list is checked before the support list, and both before the FreeDC list |
| BillStructure.RestructuredCopies | scripts/update-bill-structure.js:78-84 | identity, numbers, title, description, sponsors, category and flags are copied; riders and support bills keep their status |
| BillStructure.RiderFields | scripts/update-bill-structure.js:86-92 | a record is typed "rider" exactly when it is a rider; riders get priority high, source freedc, fiscal year 2026 |
| BillStructure.SupportFields | scripts/update-bill-structure.js:97-101 | support bills get position support, priority high, and keep source manual and type bill |
| BillStructure.RegularFields | scripts/update-bill-structure.js:106-123 | regular bills get type bill, position oppose, the default status, and high/freedc exactly when in the FreeDC list, else low/manual |
| Stats.PendingIsNotPassed | scripts/generate-stats.js:24-32 | a bill is pending exactly when it is not passed |
| Stats.PassedPendingPartition | scripts/generate-stats.js:24-32 | the passed and pending lists partition the bills |
| Stats.StatsTotals | scripts/generate-stats.js:19-46 | total = pending + passed; total = bills + riders; breakdown counts are the array lengths, missing arrays counting 0; `lastUpdated` is copied |
| Stats.EntriesIndex | scripts/generate-stats.js:47-52 | the k-th passed entry is built from the k-th passed bill |
| Stats.PassedEntries | scripts/generate-stats.js:24-52 | each passed entry carries the bill's id, first number, title and a stage that starts with "passed-" or is "enacted", in the bills' order |
| Sponsors.KeysOf | scripts/generate-sponsors.js:34-51 | a member gets two or three lookup keys |
| Sponsors.KeysOfSpec | scripts/generate-sponsors.js:34-51 | every key starts with "Sen " for the Senate and "Rep " otherwise; the first is the full name; a third (middle-initial) key exists exactly when the name has more than two parts |
| Sponsors.MemberFields | scripts/generate-sponsors.js:23-59 | a row's record takes name, state and chamber from the fields; district is null exactly for "Statewide"; party is D, R or the party's first letter |
| Sponsors.GenerateSponsors | scripts/generate-sponsors.js:13-65 | the line loop builds the dictionary of the specification over the split lines |
| Sponsors.AddLine | scripts/generate-sponsors.js:20-64 | one line adds its row's keys, or nothing for a skipped line |
| Sponsors.AddKeys | scripts/generate-sponsors.js:62-64 | every key of a row is set to the row's record |
| Sponsors.LoadedStep | scripts/generate-sponsors.js:19-65 | each line after the header adds its row to the dictionary so far |
| Sponsors.PutAllSpec | scripts/generate-sponsors.js:62-64 | setting the keys stores the record under each of them and leaves other keys alone |
| Sponsors.LoadedValid | scripts/generate-sponsors.js:16-65 | the dictionary lists each key once |
| Sponsors.SkippedLines | scripts/generate-sponsors.js:19-24 | the header, blank lines and lines with fewer than five fields add nothing |
| Sponsors.LastRowWins | scripts/generate-sponsors.js:62-64 | a key maps to the record of the last line that produced it |
| Sponsors.KeysHaveRows | scripts/generate-sponsors.js:19-65 | every key of the dictionary was produced by some line |
| RollCall.ExtractRollCallNone | scripts/debug-rollcall.js:81-87 | there is no roll number exactly when none of the three phrases followed by digits occurs |
| RollCall.ExtractRollCallPicks | scripts/debug-rollcall.js:81-83 | exactly one capture group is set, the matching alternative's, so `g1 \|\| g2 \|\| g3` is its digits |
| RollCall.ExtractRollCallSpec | scripts/debug-rollcall.js:81-83 | the roll number is the non-empty digit run of the leftmost match |
| RollCall.LeftmostYeasWin | scripts/debug-rollcall.js:81-83 | "Yeas and Nays: 4 (Roll no. 7)" yields 4: the leftmost match wins, not the first alternative |
| RollCall.YeasOnlyThird | scripts/debug-rollcall.js:81 | at the start of "Yeas and Nays: 4 (Roll no. 7)" only the third alternative matches |
| RollCall.PassageActionIff | scripts/debug-rollcall.js:66-72 | the filter keeps an action exactly when it has text containing "Passed", and the text either lacks "Passed/agreed to in House" or names "On passage Passed" or "Passed House" |
| RollCall.PassageActionsSpec | scripts/debug-rollcall.js:66-72 | the passage actions are the actions passing the filter, in order |
| RollCall.CheckBillActionsSpec | scripts/debug-rollcall.js:48-89 | an error payload or a missing action list ends the check before filtering; otherwise each passage action is reported with its roll number |
| RollCall.Tally | scripts/debug-rollcall.js:30-39 | the loop sums the yea and nay totals of all parties |
| RollCall.SumsAppend | scripts/debug-rollcall.js:34-39 | the sums are additive over the party list |
| RollCall.SumsBound | scripts/debug-rollcall.js:34-39 | each party's count is at most the total, and a missing count adds 0 |
| RollCall.FetchRollCall | scripts/debug-rollcall.js:10-46 | an error payload is reported; a missing vote throws; otherwise the totals are the sums over the party totals (none when missing) |
| DebugVote.DebugBillSpec | scripts/debug-vote.js:10-57 | an error payload or a missing action list returns before filtering; otherwise each action of the four-phrase passage filter is reported with its roll number, in order, and the "roll" list is the actions whose lower-cased text contains "roll", in order |
| DebugVote.PassageEntries | scripts/debug-vote.js:39-49 | the k-th report line is the k-th passage action with its extracted roll number |
| DebugVote.VotePassageWithinRollCallFilter | scripts/debug-vote.js:29-36 | every action the four-phrase filter keeps contains "Passed", and it is kept by the roll-call script's filter unless its text names "Passed/agreed to in House" |
| DebugVote.RollNumberMentionsRoll | scripts/debug-vote.js:44-53 | an action whose roll number comes from "Roll no." is in the "roll" listing |
| AppFilters.SomeContainsIff | src/App.jsx:29-30 | `some(x => x.toLowerCase().includes(term))` holds exactly when one element contains the term |
| AppFilters.FilteredIsFilter | src/App.jsx:14-32 | the two successive filters are one filter by the combined test |
| AppFilters.FilteredSpec | src/App.jsx:14-32 | the result is a subsequence of the bills, and a bill is in it exactly when it passes the category and the search test |
| AppFilters.NoFilters | src/App.jsx:17-24 | no selected category and a blank search show every bill, in order |
| AppFilters.GroupedInOrder | src/App.jsx:35-38 | the groups follow the category order |
| AppFilters.GroupedContents | src/App.jsx:35-38 | each group is non-empty and holds exactly the filtered bills of its category, in order |
| AppFilters.GroupedComplete | src/App.jsx:35-38 | every category that has filtered bills gets its group |
| AppFilters.GroupMembers | src/App.jsx:37 | a group's bills are a subsequence of the filtered bills, all of the group's category |
| AppFilters.GroupSizes | src/App.jsx:35-38 | with distinct category ids, the group sizes sum to the number of filtered bills whose category exists, hence at most the filtered count |
| AppFilters.ToggleSpec | src/App.jsx:43-49 | toggling flips the membership of the id only: an absent id is appended; a present id is removed wherever it occurs; toggling an absent id twice restores the list |
| AppFilters.ClearFilters | src/App.jsx:51-54 | after clearing, no category is selected and the search term is empty |
| AppFilters.ClearShowsAll | src/App.jsx:51-54 | after clearing, every bill is shown |
| CsvExport.GetCategoryNameSpec | src/components/DownloadButton.jsx:10-13 | the name of the first category with the id, or the id itself when there is none |
| CsvExport.EscapeLength | src/components/DownloadButton.jsx:32 | an escaped cell is as long as the cell plus its quote count plus 2 |
| CsvExport.EscapeRoundTrip | src/components/DownloadButton.jsx:32 | reading back an escaped cell (section 2 of RFC 4180) gives the cell and stops right after it |
| CsvExport.ReadQuotedEscaped | src/components/DownloadButton.jsx:32 | every doubled quote reads back as one quote and the closing quote ends the field |
| CsvExport.RecordRoundTrip | src/components/DownloadButton.jsx:31-33 | a row line parses back into exactly its cells |
| CsvExport.Row | src/components/DownloadButton.jsx:20-26 | a row has five cells |
| CsvExport.CsvLinesSpec | src/components/DownloadButton.jsx:15-34 | there is one line per bill after the header; each bill's line parses back to its five cells; the content starts with the header |
| CsvExport.HandleDownloadSpec | src/components/DownloadButton.jsx:115-124 | only "csv" and "pdf" export; the bills are the filtered ones for scope "filtered" and all bills otherwise; the filename is dc-bills-&lt;filtered or all&gt;-&lt;date&gt;.&lt;format&gt; |
| RecentActivity.Describe | src/components/RecentActivity.jsx:40-78 | the `if` chain assigns the type, description and icon of the classification |
| RecentActivity.CollectActivities | src/components/RecentActivity.jsx:32-93 | the loop over bills then riders collects the activities of the specification, in order |
| RecentActivity.ActivityOfSpec | src/components/RecentActivity.jsx:34-92 | an item yields an activity exactly when its date is recent and its description is non-empty; the description is empty only for an unclassified item or an unknown "passed-" stage |
| RecentActivity.KindOfSpec | src/components/RecentActivity.jsx:46-78 | first match wins: passed stage, then introduced or provisional, then markup, then hearing, then any last action |
| RecentActivity.ActivitiesSpec | src/components/RecentActivity.jsx:20-93 | there are at most as many activities as items, each dated within the last 30 days, non-empty, and marked passed exactly when its type is "passed" |
| RecentActivity.IsPassedSpec | src/components/RecentActivity.jsx:90 | `isPassed` holds exactly when the stage starts with "passed-" |
| RecentActivity.InsertSorted | src/components/RecentActivity.jsx:96-97 | inserting into a newest-first list keeps it newest-first |
| RecentActivity.InsertMultiset | src/components/RecentActivity.jsx:96-97 | inserting adds the one element |
| RecentActivity.SortNewestFirstSpec | src/components/RecentActivity.jsx:96-97 | the sort orders newest first and is a permutation |
| RecentActivity.RecentActivitiesSpec | src/components/RecentActivity.jsx:95-98 | the list shows min(n, 10) activities newest first; all of them when there are at most 10, and otherwise none of those left out is newer than the last shown |
| RecentActivity.FormatDateSpec | src/components/RecentActivity.jsx:102-125 | no date gives nothing; the same day gives "Today", the day before "Yesterday", 2 to 7 days "N days ago", anything else the calendar date |
| BillCard.LinkChainCancels | src/components/BillCard.jsx:26-29 | the three replacements cancel out: the link is the 119th-congress URL with the bill's type code and number |
| BillCard.GetCongressLinkSpec | src/components/BillCard.jsx:10-30 | null exactly when the regex does not match; otherwise the URL with the leftmost match's code and digits |
| BillCard.CardClassesSpec | src/components/BillCard.jsx:33-34 | every priority class starts with "priority-"; a missing or empty priority gets the same class as priority "low"; two different non-empty priorities never share a class; the type class is non-empty exactly for riders |
| BillCard.NumberEntriesSpec | src/components/BillCard.jsx:44-61 | one entry per number, with its link; " / " follows every number but the last |
| BillCard.RenderedJoin | src/components/BillCard.jsx:61 | the rendered numbers are the numbers joined by " / " |
| PassedBills.GetSponsorInfoOfGenerated | src/components/PassedBillsSection.jsx:10-12 | a name the sponsor script produced finds the record of the last row that produced it |
| PassedBills.GetSponsorInfoOfUnknown | src/components/PassedBillsSection.jsx:10-12 | a name no row produced finds null |
| PassedBills.GetStateAbbrSpec | src/components/PassedBillsSection.jsx:15-17 | the abbreviation when the table has a non-empty one, the name itself otherwise; idempotent when no abbreviation is a key |
| PassedBills.SponsorBadgeSpec | src/components/PassedBillsSection.jsx:109-113 | a badge exactly for a known name: party, "-", state abbreviation, and " district" only when there is a district |
| PassedBills.JsNumber | src/components/PassedBillsSection.jsx:21 | `Number` of a string, when not NaN, is a non-negative integer |
| PassedBills.NumberOfNatToString | src/components/PassedBillsSection.jsx:21 | `Number` reads a decimal numeral back as its value |
| PassedBills.SplitDate | src/components/PassedBillsSection.jsx:21 | three dash-free parts joined by dashes split back into themselves |
| PassedBills.ParseLocalDateSpec | src/components/PassedBillsSection.jsx:20-23 | "Y-M-D" gives year Y, month index M − 1 and day D |
| PassedBills.ParseLocalDateNoDash | src/components/PassedBillsSection.jsx:20-23 | a string without a dash gives its number as the year and NaN for month and day |
| Scan.SearchSpec | scripts/discover-bills.js:64 | the regex search finds nothing exactly when no alternative followed by spaces and digits occurs; otherwise it finds the leftmost match, its first matching alternative and the whole digit run |
| Scan.LeftmostUnique | scripts/discover-bills.js:64 | the leftmost match is unique |
| Scan.MatchEndIsDigitRunEnd | scripts/discover-bills.js:64 | the greedy `\d+` takes the whole digit run |
| Text.SplitJoin | scripts/generate-sponsors.js:13-23 | `split` undoes a join of parts that do not contain the separator |
| Text.TrimEmptyIff | scripts/generate-sponsors.js:20-21 | a trimmed line is empty exactly when the line is blank |

## Left out

- Network calls are inputs. This covers `fetch`, `rateLimitedFetch` (its timing and the 429 retry), `fetchCandidateDetails` and the three requests of `fetchBillStatus`. Each API answer is a record, or `None` for a request that failed or threw. The rate-limit delays have no effect on the data and are not modelled.
- File I/O is not modelled: reading and writing `bills.json`, `.discover-last-run.json`, `bill-status-history.json`, `stats.json` and `sponsors.json`. Their contents are values. `getFromDate` and `saveLastRun` (scripts/discover-bills.js:150-176) only choose and store a date from the clock and a file.
- The clock is an input: "today" and the ISO timestamp are parameters.
- Console output, the `--verbose` listings, the printed discovery report and the monitor's printed report grouped by priority are not modelled; they only print.
- The regular expressions with word boundaries, look-ahead or `\s+`, and the summary mention counts, are predicates in the `Patterns` record, so the model does not state which titles they accept. The two literal-alternative regexes (bill number, roll call) are modelled exactly. Whitespace (`IsSpace`) is the full ECMAScript WhiteSpace and LineTerminator set that `\s` and `trim` use.
- `discoverFromSubject` (scripts/discover-bills.js:296-355) only fetches and prints. Its result is never used.
- The HTML stripping of the summary in `fetchCandidateDetails` is not modelled, because the details record arrives already fetched.
- `exportToPDF` and the browser download (Blob, link, click) are not modelled: they are a foreign library and the DOM. `HandleDownload` returns the format, the bills and the filename. The CSV content is modelled in full.
- React rendering, component state and hooks are not modelled. The filters, groups, classes and links they show are modelled as functions of their inputs.
- RecentActivity.IsRecent: dates are day numbers given by a `dayOf` parameter, the same for the recency test, the sort and `formatDate`. The source parses recency and `formatDate` dates as local dates and sorts on `new Date(date)`, which is UTC. For ISO dates these give the same order. Daylight-saving hours and the locale's calendar text are not modelled.
- RecentActivity.SortNewestFirstSpec: the sort is proved ordered and a permutation, not stable.
- PassedBills.JsNumber: only blank strings and plain decimal digits are numbers. Signs, decimals, exponents and hex literals are read as NaN, which dates in the data never contain.
- PassedBills.ParseLocalDateSpec: the model gives the `Date` constructor's arguments. It does not give the normalised date the constructor builds from out-of-range months or days.
- The PassedBillsSection copy of `getCongressLink` is the same text as BillCard's, modelled once as `BillCard.GetCongressLink`, so that the two agree on every input holds by construction.
- The test-monitor copy of `parseBillNumber` (scripts/test-monitor.js:24-54) is the same text as the monitor's, modelled once as `Monitor.ParseWithChamber`.
- The test script's sorted printing of group sizes (scripts/test-monitor.js:98-100) and its first-five URL listing are not modelled. They only print.
- Monitor.FetchBillStatus: a `bill.committees` value that is not an array would throw inside the request and make the status null. The model takes the committee names as an optional list.
- AppFilters.FilteredSpec: the search term is lower-cased but not trimmed, as in the source. Only the test for a blank term trims.
- AppFilters.GroupSizes: the sum is stated for distinct category ids. With a repeated id, a bill would be counted once per repeat.
- DiscoverBills.DiscoverFromTitleScan: bills of any congress are accepted, because the scan asks the API for the 119th Congress only and does not check `congress`. Only the committee channel skips other congresses (scripts/discover-bills.js:198).
- DiscoverBills.PagesFromBound: the model stops after the page read at offset 1000. The source ends there too, because the check `offset >= 1000` stops the loop.
- AppFilters.FilteredSpec: case mapping is ASCII-only. `Text.Lower` and `Text.Upper` fold A-Z and a-z, while `toLowerCase` and `toUpperCase` fold all of Unicode, so "équité" does not find a bill titled "Équité Act" in the model. The same holds for every other member that lower- or upper-cases: `AppFilters.SomeContainsIff`, `Monitor.FlagsOf`, `Monitor.SimplifiedStatus`, the committee rule of `Relevance.Triggered`, the type of `DiscoverBills.CommitteeHit`, `DebugVote.MentionsRoll`, and the fallback of `BillNumber.FormatBillType` (which gives "SS" for "ß" in JavaScript). The bill-number and roll-call regexes with the `i` flag are exact: without the `u` flag they never fold a non-ASCII character to an ASCII one.
- AppFilters.SomeContainsIff: the lower-casing is ASCII-only, as stated in the line above.
- Relevance.DescriptionSpec: the 300-character cut counts Unicode characters. `summary.length` and `substring(0, 300)` count UTF-16 code units, so a summary with characters outside the Basic Multilingual Plane is cut earlier in JavaScript, possibly inside a surrogate pair.
- Sponsors.CharAt0: returns the whole first character. `charAt(0)` returns one UTF-16 code unit, a lone surrogate for a party name that starts outside the Basic Multilingual Plane.
- TestMonitor.ByCategory, PassedBills.GetSponsorInfo and Relevance.TypeSlug look keys up in a `map`. The JavaScript object lookups also see `Object.prototype`: a category named "constructor" makes `.push` throw in the test script, `sponsorsData["toString"]` finds a function, and `typeSlugMap["constructor"]` finds one too. Such keys behave as absent in the model.
