# FWAlizer: a verified model

FWAlizer keeps the firewall rules of cloud resources in step with DNS. For every target (a Lighthouse or CVM
instance at Tencent, a SWAS instance or ECS security group at Alibaba) it resolves the hosts of the configured
rules, reads a complete snapshot of the cloud's rules, adds what is missing, reads a second snapshot, proves
coverage, and only then deletes what carries its TAG and is wanted no more. The cloud may fail, apply half of a
request, or be changed by somebody else at any time.

This project models that core in Dafny and proves what holds of every run. `dafny verify dfyconfig.toml` checks
all of it. The parts, in the order in which they build on each other:

- **Rules and their identity**: `Text`, `Tag`, `Ports`, `Keys`, `Validate`, `PortRoundTrip`. Strings as Go's library
  treats them, ownership by TAG, port lists, and the canonical functional key that is the only way rules are
  compared.
- **The planner**: `Plan` is the specification of a complete plan; `Planner` is the planner in the source's own
  form, with slices and index maps filled in loops, proved equal to it. `PlanFacts`, `PlanTheorems`,
  `PlanCleanup`, `PlanAccounts`, `PlanOrder` and `PlanOrderTheorem` say what the specification means: what is
  expected, added and deletable, where everything ends up, that cleaning up is final, and that input order does not
  matter. `Wishes` and `Clearance` tie it to the input alone:
  which keys the rules ask for, what each platform can express, what is added, what may be deleted, and what is
  reported. `Wire` and `CommaPorts` prove, on all four platforms, exactly which expectations are read back as they
  were planned and which never are.
- **The protocol**: `Bindings` is what rule IDs name over time, and `CloudAPI` one cloud resource as a class. Its
  contracts allow every failure, partial request, foreign change and renumbering; its bodies are one well-behaved
  cloud, so that the contracts can be met. `Providers` are the four create and delete implementations over it,
  `Paging` the three kinds of paged reads. `Resolution`, `Observation` and `Target` are one attempt of a target
  sync, `TargetSync` the up to three attempts of a whole sync. `TargetSafety` and `TargetSettles` hold the theorems
  about such attempts, `EditedRule` the run that shows why one of them has a condition.
- **Around the protocol**: `Scheduler` (publishers, `Run` and `Stop` as a transition system) and `Receipts` (what
  comes of every tick, trigger, call and resume), `Round` (four cloud groups in parallel with cooldowns), `DnsRound` (circuit breaker and the one-prober protocol), `LogQueue`,
  `LogStream`, `InFlight`, `Bus` (bounded buffers and drains), `Config`, `Bundle`, `StoredSettings`,
  `BundleRoundTrip` and `BundleFacts` (export and import), `Email` (mail canonicalisation and folding).

How things are modelled:

- A cloud's history is a value, `Moment`: the rules as they would be read, the revision, and ghost books of what
  this tool's own requests added and removed, which rule each Alibaba rule ID named when, how many requests were
  sent, how often others interfered (`foreign`) and how often something failed (`faults`). "Nobody interferes" is
  `foreign` unchanged; "quiet" is both unchanged. Theorems with neither premise hold whatever others do: they may
  add, delete and reorder rules at any time and, on Alibaba, edit a rule in place so that its ID names another
  rule from then on. A deletion by ID takes what the ID names at that moment. Where such an edit matters the
  theorem says so, as an if-and-only-if.
- Concurrent protocols are transition systems: one event is what happens under one lock or at one channel
  operation, and theorems quantify over all sequences of events. Where the source is an object with fields, a
  class beside the transition system carries the same operations and is proved against the same functions.
- Time is a virtual clock; deadlines and scheduling choices are nondeterministic.
- Addresses are canonical values: a field is blank, malformed, or a block of a family with canonical text.
- Error texts and SDK codes are classified before the model starts: an error is a record of flags.

Four limits of the code came out of the proofs. They are kept as the code has them and stated exactly:

- On Alibaba a delete request carries IDs and no version. If somebody edits a rule in place after S1 was read
  and before its deletion arrives, the edited rule is taken, whoever owns it by then.
  `EditedRule.AnEditIsDeleted` gives such a run for every rule a plan may delete and every live rule it may be
  edited into, and `EditedRule.OperatorsRuleDisappears` a concrete one. `TargetSafety.StaleExactly` says that this
  is all: everything removed is stale if and only if no struck ID had been rebound to a live rule. At Tencent,
  where requests carry the version of S1, `TargetSafety.OnlyStaleIsRemoved` needs no condition.
- A port list with no items, such as `,`, passes validation and gives an expectation no rule can meet: its target
  never reaches coverage and never cleans up (`Wire.CommaIsNeverMet`, `CommaPorts.NoItemsNoCoverage`).
  `PlanTheorems.ActionHoldsItsKey` says that this is the only planned rule that does not hold its own key.
- On Alibaba a port item is read back as planned if and only if it is `ALL`, or has no slash, is neither `-` nor
  `-1`, and has halves around its first dash that are equal exactly when their upper-case forms are
  (`PortRoundTrip.AliPortRoundTripExact`). Every `n` and `n-m` is such an item. A rule with ports `-1` passes
  validation all the same, and nothing stored for it covers its key (`Wire.MinusOneIsNeverMet`).
- If TAGs could hold `]`, two syncers could own each other's rules (`Tag.BracketsWouldCollide`); validation
  forbids it, and `Tag.OwnerIsUnique` needs exactly that.

## Model

| member | source | states |
|---|---|---|
| Tag.RenderedStaysOwned | provider/plan.go:266-293 | However long the comment and whatever the platform's length limit, a rendered description still belongs to its own TAG |
| Tag.RenderedFits | provider/plan.go:266-293 | For every accepted TAG the rendered description is the longest start of the full text that fits: at most 64 characters at Lighthouse, 50 at SWAS, all of it elsewhere |
| Tag.OwnerIsUnique | internal/tag/tag.go:22-25 | No description belongs to two different TAGs without brackets |
| Tag.RenderedIsNotForeign | config/validate.go:152-167 | With two different accepted TAGs, nothing one syncer writes is ever owned by the other, on any platform and with any comment |
| Tag.BracketsWouldCollide | provider/plan.go:266-293 | Why TAG validation must reject brackets: for all texts and on every platform, a TAG `a] b` would own what the TAG `a` renders for a comment `b] c` if and only if the platform has no length limit or its limit leaves room for the longer prefix |
| Tag.ParseUndoesFormat | internal/tag/tag.go:9-38 | Parsing a formatted description gives back the trimmed comment |
| Ports.Parse | internal/portconv/portconv.go:8-22 | The loop returns the trimmed non-empty items of the list in order |
| Ports.ItemsAre | internal/portconv/portconv.go:8-22 | No item is empty, padded or holds a comma |
| Ports.ExpandPlannedPorts | provider/plan.go:240-261 | One wire port per item in order, the raw text when there is no item, never an empty list |
| Keys.SplitPortField | provider/plan.go:867-881 | The loop with its seen-check returns the distinct trimmed non-empty parts of a cloud port field |
| Keys.BuildKeys | provider/plan.go:371-403 | The loop returns the complete sorted key set of a rule, or refuses a rule that cannot be judged safely |
| Keys.SnapshotKeysShape | provider/plan.go:407-413 | A judged rule has at least one key, and all its keys carry its own address, protocol and action |
| Keys.SnapshotKeysExactly | provider/plan.go:350-413 | A cloud rule can be judged if and only if exactly one address field is filled, with a block of its own family, and it has a protocol, ACCEPT or DROP, and a port part unless the protocol has no ports; its keys are then one for each part of its port field, or the one for all ports |
| Keys.KeysIgnoreIdentity | provider/plan.go:371-413 | Rules that differ only in description and locators have the same keys |
| Keys.KeyStringInjective | provider/plan.go:50-54 | Two keys whose address, protocol and action hold no bar have the same text only if they are equal, so the text may index maps |
| Validate.NormalizedIsNormal | config/validate.go:98-126 | An accepted rule is in the normal form the planner relies on, with a trimmed host that is not blank |
| Validate.RuleAcceptedExactly | config/validate.go:98-126 | A rule is accepted exactly with a host, a known protocol and action in whatever spelling, and ports unless it is ICMP; ID, targets, comment and IPv6 switch stay, the words are those of the input in upper case, the ports those of the input or ALL for ICMP |
| Validate.NormalRulesStay | config/validate.go:98-126 | Every rule in normal form with a trimmed, non-blank host is accepted unchanged, ACCEPT or DROP |
| PlanFacts.MergingIsExact | provider/plan.go:482-576 | Merging leaves one entry per expected key, each with the first wire form, first comment, and the rule IDs and hosts in order of first appearance |
| PlanFacts.NotedIsExact | provider/plan.go:559-572 | The unsupported list is empty exactly when every expectation can be expressed on the platform |
| PlanFacts.DesiredIsExact | provider/plan.go:475-587 | Desired keys are pairwise distinct and sorted, each comes from an expectation, and every expectation is among them; Wishes.DesiredAreWishes says which these are |
| PlanFacts.DesiredEntryFits | provider/plan.go:504-587 | A desired entry is what one of its rules asks for, it is implementable exactly when that ask can be expressed, and its description is owned by the TAG |
| Wishes.DesiredAreWishes | provider/plan.go:475-576 | A key is desired if and only if some rule asks for it: DNS answered the rule without error, and family and prefix of one of its addresses, one of its protocol words (TCP+UDP is one word on SWAS and the two words TCP and UDP elsewhere), one item of its port list and its action make that key |
| Wishes.PortsMeanThemselves | provider/plan.go:240-261 | The port of such a key is what the item says: a number or a range of numbers is itself, with equal halves once, and ALL is every port |
| Wishes.ImplementableExactly | provider/plan.go:431-442 | A desired key is implementable unless it asks SWAS for IPv6 or for DROP, or ECS for ICMP over IPv6 |
| Wishes.UnsupportedExactly | provider/plan.go:559-572 | The unsupported list holds the limit and the key of every desired key that cannot be expressed and nothing else, and is empty if and only if all can |
| Wishes.EntryIsMadeOfWishes | provider/plan.go:504-587 | A desired entry names, sorted and once each, exactly the rules and the hosts that ask for its key; its comment is that of the first of them that has one, its action is what one of the first asks for, and its description renders that comment |
| Wishes.DNSIssuesExactly | provider/plan.go:482-515 | A DNS issue is reported for exactly the rules that have an error, no address, or an address that is none, and none is reported if and only if every rule is answered in full |
| PlanTheorems.ToAddExact | provider/plan.go:652-681 | A rule is added exactly when it belongs to a desired, implementable key that no judged rule of the snapshot holds |
| PlanTheorems.AdditionsAreMissingOnes | provider/plan.go:652-681 | Keys of additions are disjoint from all keys of the snapshot, owned or external |
| PlanTheorems.ActionHoldsItsKey | provider/plan.go:416-428 | A planned rule covers exactly its own key, except with a port list without items, where it covers none |
| PlanTheorems.ConflictsExact | provider/plan.go:601-650 | No conflict is reported exactly when every rule can be judged, no two rules contradict each other, and a Tencent snapshot has a revision |
| PlanTheorems.GateExact | provider/plan.go:712-739 | The cleanup gate is open exactly when the snapshot is complete and free of conflicts, DNS answered for everything, every expectation can be met, and all of them are covered |
| PlanTheorems.DeletableExact | provider/plan.go:683-754 | A snapshot rule is deletable, as often as it occurs, exactly when the gate is open, it is owned, none of its keys is desired, and it can be located without ambiguity |
| PlanTheorems.DeletableIsStale | provider/plan.go:683-754 | Whatever is deletable carries the TAG, serves no desired key, and is deletable only while every desired key is implementable and covered |
| PlanAccounts.DesiredHasOnePlace | provider/plan.go:652-681 | Every desired key is met by owned rules, else by external ones, else added, else not expressible; covered means one of the first two, and its action is added if and only if the key is expressible and not covered |
| PlanAccounts.MatchesExact | provider/plan.go:659-676 | The match lists hold exactly one kind of entry: a desired key with all its holders, external ones only where there is no owned one |
| PlanAccounts.CandidatesAreAccounted | provider/plan.go:741-754 | Behind an open gate deletables and deferred reasons add up to the candidates; behind a shut one nothing is deletable and a reason is given |
| PlanAccounts.IssuesAreInOrder | provider/plan.go:838-859 | All four issue lists of a plan are sorted by code, key text, domain and rule, in that order of precedence |
| Clearance.AdditionsExactly | provider/plan.go:652-681 | A key is added if and only if a rule asks for it, the platform can express it, and no judged rule of the snapshot holds it |
| Clearance.ReadyExactly | provider/plan.go:652-681 | Coverage is reported if and only if something expressible is asked for, all of it is held by the snapshot, and the state after adding is known |
| Clearance.GateExactly | provider/plan.go:712-741 | The cleanup gate is open if and only if DNS answered every rule in full, every key asked for can be expressed, every rule of the snapshot can be judged, no two of them contradict each other, a Tencent snapshot has a revision, and coverage is reported |
| Clearance.DeletionsExactly | provider/plan.go:683-807 | A snapshot rule may be deleted, as often as it occurs, if and only if the gate is open, it carries the TAG, no rule asks for any of its keys, and it can be located: on Lighthouse by keys the snapshot holds once, on CVM by a numeric index, on Alibaba by an ID |
| Clearance.ConflictsSay | provider/plan.go:601-650 | The conflicts are exactly one for every rule that cannot be judged, naming it, one for every service both accepted and dropped, and one for a missing Tencent revision |
| Clearance.DeferralsSay | provider/plan.go:712-757 | The deferred list holds exactly the reasons that keep the gate shut, the codes of unsupported wishes and conflicts among them, and every leftover that cannot be located with its first key and the reason |
| PlanCleanup.ValueDeletionIsIdentityDeletion | provider/plan.go:780-789 | On Lighthouse the only rule a value-addressed delete of a deletable rule can match is that rule itself |
| PlanCleanup.MatchingRulesShareKeys | provider/tc_lighthouse.go:243-265 | Rules that match in protocol, port, address and action have the same keys, blank ports read as ALL included |
| PlanCleanup.CleanupKeepsCoverage | provider/plan.go:652-754 | Every desired key covered before stays covered when all deletable rules go and the rest is renumbered |
| PlanCleanup.LeftoverStaysLeft | provider/plan.go:771-807 | A candidate deferred for want of a locator does not become deletable through the cleanup of others |
| PlanCleanup.CleanupIsFinal | provider/plan.go:460-762 | Planning again after a complete cleanup adds nothing and deletes nothing |
| PlanOrderTheorem.PlanForgetsOrder | provider/plan.go:475-762 | Permuting rules, resolved addresses or snapshot entries gives the same desired list, additions and coverage verdict, and the same multisets of candidates, deletables, deferrals, DNS issues, unsupported issues and conflicts, each issue with what its message names: the error text, the described cloud rule, or the count |
| PlanOrder.DesiredForgetsOrder | provider/plan.go:475-587 | The desired list with all merged attributes does not depend on the order of rules or addresses |
| PlanOrderTheorem.GateForgetsOrder | provider/plan.go:712-741 | Nor does the list of reasons that keep the gate shut |
| PlanOrderTheorem.LocatorForgetsOrder | provider/plan.go:771-807 | Whether and why a rule cannot be located does not depend on the order of the snapshot |
| Planner.AddRules | provider/plan.go:479-576 | The merging loops with their index map and seen set compute the specified fold over all expectations and all DNS issues, whose meaning Wishes.EntryIsMadeOfWishes and Wishes.DNSIssuesExactly state on the input |
| Planner.RenderAndSort | provider/plan.go:578-587 | Rendering in place and sorting give the specified desired list |
| Planner.IndexSnapshot | provider/plan.go:589-625 | The one pass over the snapshot fills owned index, external index, tuple actions and invalid list as specified, one issue naming each rule that cannot be judged |
| Planner.FindConflicts | provider/plan.go:601-650 | The conflict list is the specified one, in order |
| Planner.Coverage | provider/plan.go:652-681 | Matches by owned and by external rules, additions and the coverage verdict are the specified ones |
| Planner.FindCandidates | provider/plan.go:683-710 | The loop over owned rules finds exactly the owned rules none of whose keys is desired |
| Planner.Gate | provider/plan.go:712-741 | The reasons that keep the gate shut, unsupported and conflict codes each once and sorted, in the specified order |
| Planner.DistinctIssueCodes | provider/plan.go:824-836 | Seen-set and sort give each code once in sorted order |
| Planner.CleanupLocatorIssue | provider/plan.go:771-807 | The branches over the index maps decide as the specification over the snapshot does |
| Planner.LocateCandidates | provider/plan.go:741-754 | Deletables are the locatable candidates behind an open gate, and every other candidate's reason is deferred |
| Planner.PlanTarget | provider/plan.go:460-762 | The planner as written computes the specified plan on every input; what that plan desires, cannot express, adds, may delete and gives as reasons is stated on the input by the rows of Wishes and Clearance |
| Wire.WireRoundTrip | provider/plan.go:240-261 | On each of the four platforms an implementable planned rule whose port items come back, encoded for create, stored, read back and canonicalised, has exactly its planned key and description; at Tencent any list with an item does, at Alibaba any list of items AliPortRoundTripExact names |
| Wire.WordsOnTheWire | provider/tc_cvm.go:140-178 | For an expectation a platform can express, its request entry carries the key's address in exactly one field, the action in the platform's spelling and none at SWAS, ICMP over IPv6 under its two Tencent names, and no port for ICMP at CVM |
| Wire.WireRoundTripExact | provider/ali_ecs.go:177-195 | Every implementable desired entry, whatever its ports: either everything the cloud can store for it reads back as exactly its key and description, or nothing the cloud can store for it ever covers its key, and which of the two is decided by the port item it was planned from |
| Wire.ReadBackExact | provider/tc_lighthouse.go:181-208 | The same for every single expectation and every description, full ranges, slash forms, portless ICMP, ICMPv6 renaming and omitted ports included |
| PortRoundTrip.AliPortRoundTripExact | provider/ali_ecs.go:275-287 | For every trimmed, comma-free, non-empty item: its slash form and the dash form read back are the same canonical port if and only if the item is ALL, or has no slash, is not - or -1, and its halves are equal exactly when their upper-case forms are |
| PortRoundTrip.RangesComeBack | internal/portconv/portconv.go:24-36 | ALL, every number and every pair of numbers around a dash is such an item |
| Wire.MinusOneIsNeverMet | config/validate.go:98-126 | A rule with ports -1 passes validation unchanged, and nothing an Alibaba platform stores for it covers its key |
| Wire.CommaIsNeverMet | config/validate.go:98-126 | A rule with ports , passes validation unchanged, and nothing any platform stores for it covers its key |
| CommaPorts.NoItemsNoCoverage | provider/plan.go:652-681 | An expressible expectation whose port list has no items is desired but covered by no snapshot whatever, so coverage is never reached and nothing is ever deletable |
| CommaPorts.KeysHoldNoComma | provider/plan.go:371-403 | No key of any cloud rule holds a comma |
| CloudAPI.CreateBehaves | provider/provider.go:20-36 | An honest cloud that appends and numbers the rules of a request meets the create contract: books balance, locators stay unique, IDs stay bound |
| CloudAPI.DeleteBehaves | provider/provider.go:20-36 | An honest cloud that filters out what a request names meets the delete contract |
| CloudAPI.Cloud.Create | provider/provider.go:20-36 | Whatever happens only rules of the request are put in; undisturbed and with a current guard, all of them are |
| CloudAPI.Cloud.Delete | provider/provider.go:20-36 | Whatever happens only what the request names disappears through it: at Tencent rules it hits, and only under the revision it was guarded with; at Alibaba whatever its IDs name at that moment, edits since they were read included; undisturbed, all named rules do |
| CloudAPI.NumberedIsUnique | provider/plan.go:764-807 | Serial numbers as index and ID make every rule's locator unique |
| Providers.ECSCreate | provider/ali_ecs.go:159-210 | Batches of 100 write nothing but planned rules; when a batch fails, what the batches before it wrote is counted exactly and nothing is sent after it; undisturbed all of it is written in the fewest requests |
| Providers.SWASCreate | provider/ali_swas.go:179-218 | Rules SWAS cannot express are left out and counted, written plus skipped is the whole list exactly on success |
| Providers.KeepSupported | provider/ali_swas.go:179-218 | Kept and skipped rules partition the request |
| Providers.CVMCreate | provider/tc_cvm.go:132-190 | On a quiet cloud a request over the limit is refused before anything is sent, and any other puts all its rules in under the version of S0 |
| Providers.CheckRuleLimit | provider/tc_cvm.go:248-280 | The limit check reads only; on a quiet cloud it refuses exactly when the larger of list length and stated statistics, plus the additions, exceeds the limit |
| Providers.CreateRules | provider/tc_lighthouse.go:175-227 | On every platform and under every disturbance only planned rules are added; undisturbed on a current snapshot all of them are, or CVM refuses |
| Providers.ECSDelete | provider/ali_ecs.go:218-250 | Batches delete only the given rules; when one fails, exactly the rules of the batches before it count as deleted and nothing is sent after it; undisturbed the batches together leave what one request would |
| Providers.FirstBlankID | provider/ali_ecs.go:218-230 | The call is refused locally exactly when some rule has no ID |
| Providers.CollectIndexes | provider/tc_cvm.go:198-225 | Indexes are accepted exactly when all are numbers and no two are equal |
| Providers.DeleteGuarded | provider/tc_cvm.go:198-238 | A version-guarded delete removes anything only if nothing changed since the snapshot it was planned on |
| Providers.DeleteRules | provider/provider.go:26-46 | On every platform only the given rules disappear; a local refusal sends nothing and happens only for bad locators; deleted and resolved counts agree with the error, and only ECS reports partial progress, which is exact; undisturbed all of them go |
| Paging.ReadPass | provider/tc_lighthouse.go:96-148 | If the version did not change during a pass it collected the whole list; used requests are counted; without faults or changes it succeeds on every list the budget reaches |
| Paging.GetVersionedSnapshot | provider/tc_lighthouse.go:82-160 | Under any changes between pages a successful read is exactly the rule list at the returned revision; both passes together stay in the request budget; only faults, changes or too long a list make it fail |
| Paging.GetCountedSnapshot | provider/ali_swas.go:64-161 | A success agrees with every total stated; on an unchanged firewall it is the whole list, and a fault-free read succeeds exactly when 100 pages can prove the end |
| Paging.GetTokenSnapshot | provider/ali_ecs.go:70-144 | No token is followed twice; the chain is given up exactly when a token comes again; on an unchanged group a success is the whole list |
| Resolution.ResolveTargetRules | syncer/target.go:379-445 | Each host is asked once and its answer shared by all rules; published are, once each, exactly the hosts that fail now and did not fail in an earlier attempt |
| Resolution.EachRuleGetsItsAnswer | syncer/target.go:420-442 | Every rule gets exactly its own host's addresses, narrowed to IPv4 unless it asks for IPv6, or its own host's error, and no rule anything of another |
| Resolution.FilterIPv4 | syncer/syncer.go:1039-1047 | Keeps exactly the IPv4 addresses in order |
| Resolution.DesiredInputComplete | syncer/observation.go:50-57 | True exactly when every rule has addresses and no error |
| Resolution.FailureIsRetryable | syncer/target.go:476-488 | The verdict is that of the failing rule with the lowest ID, and not retryable if none failed |
| TargetSafety.OnlyStaleIsRemoved | syncer/target.go:252-342 | In every attempt, under every failure and interference, a removed rule carries the TAG and serves no desired key: always at Tencent, at Alibaba whenever no struck ID had been rebound to a live rule |
| TargetSafety.StaleExactly | provider/ali_ecs.go:218-250 | At Alibaba everything an attempt removes is stale for it if and only if none of the IDs it struck had been rebound to a live rule since the reading of S1 began |
| TargetSafety.StruckIsStale | provider/ali_ecs.go:218-250 | The same for each rule struck: it is stale if and only if its own ID had not been rebound to a live rule |
| TargetSafety.UndisturbedIDs | syncer/target.go:252-342 | While nobody else changes the cloud no ID is ever rebound, so the condition holds |
| TargetSafety.RemovalNeedsCoverage | syncer/target.go:212-240 | Under every failure and interference, edits in place included, nothing at all is removed unless S1 showed every desired key implementable and covered |
| EditedRule.AnEditIsDeleted | provider/ali_ecs.go:218-250 | For every rule a plan on an Alibaba snapshot may delete and every live rule, there is a run of the attempt in which the one is edited into the other between S1 and the request, and the live rule is removed, in a run that starts and ends in states the cloud can be in |
| EditedRule.OperatorsRuleDisappears | provider/ali_ecs.go:218-250 | One such run in full: a leftover of the TAG, edited by an operator into a rule of another description and port, disappears although it is outside the TAG |
| TargetSafety.OthersStay | syncer/target.go:139-240 | If nobody else changes the cloud, rules outside the TAG and rules serving a desired key keep their full multiplicity |
| TargetSafety.AccessIsKept | syncer/target.go:139-240 | If nobody else changes the cloud, a desired key covered at the start of an attempt is covered at its end, whatever failed or half-applied in between |
| TargetSafety.AddedIsOwned | provider/plan.go:578-584 | Everything an attempt adds carries its own TAG as stored by the cloud |
| TargetSafety.SyncersLeaveEachOtherAlone | config/validate.go:152-167 | What one syncer adds a syncer with another accepted TAG never removes at Tencent, even across clouds, and at Alibaba if and only if an ID it strikes was rebound to that very rule after its S1 |
| TargetSafety.StoredForFits | provider/plan.go:240-261 | What the cloud stores for an addition with ports that come back covers exactly its key and keeps its description |
| TargetSettles.DeletablesHaveLocators | provider/plan.go:771-807 | The list a cleanup sends always passes the providers' local locator checks |
| TargetSettles.LocatorsNameDeletables | provider/plan.go:771-807 | The locators of a cleanup name, among the rules of their snapshot, exactly the deletable ones |
| TargetSettles.NamedIsStale | syncer/target.go:299-306 | What a delete request built from a plan takes is, at Tencent, deletable by that plan, and at Alibaba what the IDs of its deletable rules name at that moment |
| TargetSettles.CleanedIsSettled | syncer/target.go:252-342 | A cleanup that was carried out leaves a cloud on which planning neither adds nor deletes |
| TargetSettles.CreatedCovers | syncer/target.go:176-214 | After an undisturbed create no addition is missing any more |
| Target.ReadSnapshot | syncer/target.go:156-160 | A read changes nothing, and on a cloud left alone shows it as it is |
| Target.Recheck | syncer/target.go:266-297 | The second proof of staleness before sending never drops a rule the plan allowed |
| Target.VerifyCleanupResult | syncer/target.go:346-373 | S2 is read only, success means full coverage on S2 and counts what is left; on a settled, undisturbed cloud it succeeds |
| Target.RunTargetCleanup | syncer/target.go:252-342 | Without deletables nothing is sent; deferred counts are never negative and come from S2 when there is one; every error is retryable cleanup or a named read or coverage failure; undisturbed it succeeds and settles the target |
| Target.AddMissing | syncer/target.go:176-187 | Only planned additions are sent; an empty list sends nothing; undisturbed all of them arrive, or CVM refuses |
| Target.ProveAndClean | syncer/target.go:212-240 | Cleanup happens only after S1 covers everything implementable and DNS answered for all rules |
| Target.RunProtocol | syncer/target.go:156-240 | Every run of the attempt is a safe step, tells the truth about what happened, and when undisturbed ends settled |
| Target.RecordAttempt | syncer/target.go:171-235 | The result object says what the run did: counts, both kinds of observations, and the outcome, which for a confirmed run is success if and only if every desired key can be expressed |
| Target.RunTargetAttempt | syncer/target.go:139-240 | One attempt on an arbitrary cloud is a safe step, reports what it did on the answers it got, and when undisturbed settles the target, leaves a settled one untouched, and fails only for missing addresses or the CVM limit; without an error its outcome is success if every desired key is implementable, partial if one is not, and never failed |
| Target.SettledMeansDone | syncer/target.go:139-240 | On a settled target every key a rule asks for and the platform can express is there, and unless something forbids cleaning up there is no leftover of the TAG that can be located |
| Target.SecondAttemptIsIdle | syncer/target.go:139-240 | After an undisturbed successful attempt, a second one with the same wishes sends no create and no delete and leaves the cloud as it is; it can only fail for missing addresses |
| TargetSync.RunKeepsAccess | syncer/target.go:82-136 | Over a whole sync on a cloud nobody else changes, a key covered at the start and desired in every attempt is covered at the end |
| TargetSync.RunKeepsOthers | syncer/target.go:82-136 | Over a whole sync rules outside the TAG keep their multiplicity |
| TargetSync.RunRemovesOnlyStale | syncer/target.go:82-136 | Over a whole sync every removed rule carried the TAG and was stale in an attempt whose S1 covered everything: always at Tencent, at Alibaba when no attempt struck a rebound ID |
| TargetSync.RunStaleExactly | syncer/target.go:82-136 | Over a whole Alibaba sync all attempts remove stale rules alone if and only if none of them struck an ID rebound to a live rule |
| TargetSync.LastCleanupIsKept | syncer/observation.go:72-100 | The kept cleanup observation is the last one made, numbered with its attempt and historical exactly when a later attempt made none |
| TargetSync.LastPlanIsKept | syncer/observation.go:72-100 | So are the latest planning observation and the last complete one |
| TargetSync.KeptPlans | syncer/observation.go:59-100 | Both planning observations follow that one rule although they may be one object |
| TargetSync.AddAttempt | syncer/target.go:99-131 | One turn of the loop adds one safe attempt to the run and its counts and observations to the result |
| TargetSync.SyncTarget | syncer/target.go:82-136 | At most three attempts, each but the last failing retryably; counts are sums over them with deleted equal to cleanup-deleted; with an error the outcome is failed, and without one the last complete snapshot covered everything implementable and the outcome is success if every key desired in the last attempt is implementable, else partial |
| TargetSync.AnotherAttemptFollows | syncer/target.go:99-131 | After each of the first two attempts another one follows if and only if the failed call was flagged retryable, for every kind of failure; missing coverage, a missing version, lost coverage and an incomplete or refused request end the sync, and so does the third attempt |
| TargetSync.SecondSyncIsIdle | syncer/target.go:82-136 | After a successful sync, on the same answers and with nobody interfering over both, a second sync succeeds in a single attempt, sends no request and leaves the cloud as it is |
| TargetSync.SettledStaysIdle | syncer/target.go:82-136 | However many undisturbed attempts a settled cloud sees, they leave it as it is and can only fail for missing addresses |
| Observation.TargetResult.ObserveUnsupported | syncer/observation.go:59-69 | The newest observation is kept, and a complete one becomes the last complete one, as the same object |
| Observation.TargetResult.MergeObservations | syncer/observation.go:72-100 | Merging rewrites shared observation objects in place to the merged values, sharing nothing with what it does not own |
| Observation.ClassesPartition | syncer/observation.go:102-117 | The four observation classes sum to the number of targets; the summary is complete exactly when every observation is of a snapshot of the last attempt on complete input, a target is unknown exactly when it was never observed, and historical exactly when only an earlier attempt observed it |
| Observation.CleanupObservationSummary.Add | syncer/observation.go:102-117 | The counters of the summary are those of the list of results so far |
| Scheduler.StepKeepsInv | syncer/syncer.go:215-376 | Every step of publishers, Run and Stop keeps the six invariants of the loop: wake-up, known state and phase, the account of edges and of rounds, and the order of Stop |
| Scheduler.ReachableIsInv | syncer/syncer.go:215-376 | So they hold in every reachable state |
| Scheduler.NoResumeIsLost | syncer/syncer.go:152-196 | When Run waits with nothing in flight, the last published resume has been read by a later round, or consumed as a pause, or never was |
| Scheduler.PendingResumeWakesRun | syncer/syncer.go:171-196 | A waiting Run with a resume pending has a control token or a publisher about to send one |
| Scheduler.EdgesAreServedInTime | syncer/syncer.go:215-376 | From any point of any interleaving: once Run has taken more than nine steps of its own, plus one for every trigger sent meanwhile, each edge published before has been read by a round or found paused, or Run is on its way out |
| Scheduler.EdgesCanBeServed | syncer/syncer.go:215-376 | And those steps are there to take: from every reachable state of a called Run, ten steps of Run or of the publisher it waits for serve every edge published so far |
| Scheduler.RunNeverBlocks | syncer/syncer.go:215-376 | Run is stuck nowhere but at its two selects; that it moves on to the right place is what the rows of Receipts say |
| Scheduler.DoneClosesOnce | syncer/syncer.go:488-500 | The done channel closes at most once, and has closed once Run has left or Stop ended without one |
| Scheduler.StopAdmitsOneRound | syncer/syncer.go:518-536 | After Stop at most the one round already past the gate starts |
| Scheduler.ResumeRoundsAreEarned | syncer/syncer.go:161-196 | Resume rounds never outnumber batches of edges, nor batches real false-to-true edges |
| Scheduler.EdgesInARoundCoalesce | syncer/syncer.go:161-188 | Any number of edges during one round form at most one batch, so cost at most one extra round |
| Receipts.EveryReceiptIsAccounted | syncer/syncer.go:215-376 | Over every interleaving and for each kind of round: the accepted call, ticks taken, triggers taken and resumes found due are, one by one, a round of that kind started, given up for a pending resume, given up because the published state is paused, refused by Stop, or still in hand; so a timer round starts only from a tick, a manual one only from a trigger |
| Receipts.ReceiptsSettleInTime | syncer/syncer.go:286-322 | Once Run has taken four steps of its own, every tick and every trigger taken before has been settled in one of these ways |
| Receipts.StartupRoundStarts | syncer/syncer.go:235-265 | A Run that was called and not stopped has started its startup round exactly once, unless it found the state paused or has not come to it yet |
| Receipts.StartupRoundIsReached | syncer/syncer.go:215-265 | Called with an enabled state and no Stop, Run is in its startup round four steps later |
| Receipts.EnabledRunTakes | syncer/syncer.go:277-325 | At the select a Run whose phase is enabled takes the next tick and any queued trigger, and a paused one neither |
| Receipts.PhaseIsFollowed | syncer/syncer.go:332-376 | When no notification is outstanding, a waiting Run takes ticks if and only if the published state is enabled |
| Receipts.EveryTriggerIsAccounted | syncer/syncer.go:551-558 | Every manual trigger is taken, merged into one already queued, cleared by a resume round, or still queued |
| Receipts.EdgesAreRemembered | syncer/syncer.go:152-188 | What is remembered of publications is what happened: an edge is counted exactly when a published pause is followed by an enabled state, and stays pending until a consumption |
| Receipts.RoundsAreRemembered | syncer/syncer.go:518-536 | What is remembered of rounds is what happened: resume rounds, rounds begun after Stop, the version a round read and the version found paused |
| Receipts.StopReachesRun | syncer/syncer.go:488-500 | A waiting Run sees Stop exactly from the closing of its channel on, ends two steps later and closes the done channel; Stop itself is through after three steps |
| Receipts.RunEndsOnlyWhenStopped | syncer/syncer.go:215-376 | Run leaves its loop only after Stop |
| Scheduler.Syncer.ApplyStateLocked | syncer/syncer.go:161-168 | Publishing does what the transition system's publish step does, edge memory included |
| Scheduler.Syncer.NotifyControl | syncer/syncer.go:171-176 | Leaves one token in the channel whether or not one was there |
| Scheduler.Syncer.SetSyncEnabled | syncer/syncer.go:395-411 | Publishes and notifies exactly on a real change |
| Scheduler.Syncer.ConsumeControlState | syncer/syncer.go:181-188 | State and pending edge are taken in one step, after which no edge is pending |
| Scheduler.Syncer.DrainTrigger | syncer/syncer.go:464-472 | Empties the trigger channel and touches nothing else |
| Scheduler.Syncer.AcquireRun | syncer/syncer.go:215-231 | Exactly one call of Run is ever accepted, and none after Stop |
| Scheduler.Syncer.Stop | syncer/syncer.go:488-500 | Idempotent; closes the done channel only if no Run owns it and never twice |
| Round.FilterRulesForTarget | syncer/syncer.go:1021-1036 | A target has nothing to do exactly when every rule names other targets |
| Round.RulesForExactly | syncer/syncer.go:1021-1036 | A rule anywhere in the list is kept, in its place, exactly if it names no target or this one |
| Round.GroupsPartition | syncer/syncer.go:1011-1018 | The four groups together hold every target exactly as often as the round has it, and so every target with something to do |
| Round.GroupExactly | syncer/syncer.go:1011-1018 | A target anywhere in the list is in the group of its cloud, in its place, and in no other |
| Round.ConservedKept | syncer/syncer.go:934-1009 | At every step of any schedule tallied, running and open targets sum to the total |
| Round.RoundConserves | syncer/syncer.go:863-869 | When a round is done, ok, changed, failed and skipped sum to the targets with an applicable rule, and so do the four observation classes; Round.CountersAreFindings says what each counts |
| Round.CountersAreFindings | syncer/syncer.go:970-982 | When a round is done, one target sync has returned for every target with an applicable rule; failed is the number of those that ended failed, skipped of those that ended partial, changed of the successes that added or deleted something, and ok of the other successes |
| Round.SuccessMeansAllDone | syncer/syncer.go:917-928 | The round is a success if and only if a target sync returned and all succeeded, failed if and only if one failed, partial if and only if one was partial and none failed, and idle if and only if there was none |
| Round.SpacedKept | syncer/syncer.go:934-1009 | Every step keeps finished syncs of one cloud apart |
| Round.SyncsKeepTheirDistance | syncer/ratelimit.go:10-19 | Any two syncs of one cloud type, also in different rounds, are separated end to start by at least five seconds at SWAS and Lighthouse and 200 ms at CVM and ECS |
| DnsRound.StepKeepsInv | syncer/dns_round.go:39-86 | Every interleaved step keeps one prober per open host and untouched counts |
| DnsRound.OneProbePerOpenHost | syncer/dns_round.go:39-86 | An initially open host is resolved at most once unless that probe succeeded, and a waiting target always has a prober to wait for |
| DnsRound.CountIsScheduleIndependent | syncer/dns_round.go:26-97 | Whatever the interleaving, the final count is 0 after any success, old+1 after failures only from below the threshold, and unchanged otherwise |
| DnsRound.EveryCallIsAnswered | syncer/dns_round.go:39-86 | Whatever the interleaving, every call for a host is answered by the network, turned away after a failed probe, or still under way, and none is turned away from a host whose breaker was closed when the round began |
| DnsRound.FinishRound | syncer/dns_round.go:88-97 | Finishing sets every host of the round to that count and no other host |
| DnsRound.CircuitBreaker.RecordSuccess | dns/circuitbreaker.go:65-73 | Forgets the host's count |
| DnsRound.CircuitBreaker.RecordFailure | dns/circuitbreaker.go:76-88 | Counts one failure below the threshold, none at it |
| DnsRound.CircuitBreaker.SetThreshold | dns/circuitbreaker.go:28-36 | Only a positive threshold is taken, counts stay |
| DnsRound.CircuitBreaker.CloneForDomains | dns/circuitbreaker.go:42-54 | A fresh breaker with exactly the positive counts of the named hosts |
| DnsRound.KeyOfKey | dns/circuitbreaker.go:91-91 | Host keys are fixed points, so keys and hosts may be mixed |
| LogQueue.AdmitAccounted | webui/api/logqueue.go:54-74 | Admission keeps the pending records a suffix of the accepted ones and every record accounted for |
| LogQueue.TakeAccounted | webui/api/logqueue.go:100-130 | So does taking, and what is taken is the oldest pending record |
| LogQueue.ExpireAccounted | webui/api/logqueue.go:84-98 | So do expiry and the freeze |
| LogQueue.StepKeepsInv | webui/api/logqueue.go:54-130 | Every step of producers, notifiers, worker and stop keeps the accounts and the wake-up rule |
| LogQueue.StepIsBooked | webui/api/logqueue.go:54-130 | A record is lost to overflow only on a full ring, abandoned only when the drain deadline gives the queue up, and refused only after a stop |
| LogQueue.NothingIsLostUnseen | webui/api/logqueue.go:54-146 | In every run accepted = dequeued + overflow + abandoned + pending, pending is the end of what was accepted, the records handed to the writer are those accepted at the taken positions, in order and without repeats, and the worker never sleeps on work nobody will wake it for |
| LogQueue.DrainedAtExit | webui/api/logqueue.go:150-167 | Once the worker has left, nothing is pending and nothing is admitted any more |
| LogQueue.QueuedLogWriter.Enqueue | webui/api/logqueue.go:54-74 | On the ring: admits by dropping the oldest when full, refuses after the freeze |
| LogQueue.QueuedLogWriter.Take | webui/api/logqueue.go:100-130 | On the ring: hands out the oldest pending record and leaves the rest in order |
| LogQueue.QueuedLogWriter.ExpireNow | webui/api/logqueue.go:84-98 | Counts all pending records as abandoned |
| LogQueue.QueuedLogWriter.ReportDrops | webui/api/logqueue.go:134-146 | Reporting moves counts and loses none |
| LogStream.ResumesExactlyAtValidCursors | webui/api/logstream.go:61-106 | A cursor resumes exactly where it was given if the history still reaches it, and every other text starts from the oldest entry with a reason |
| LogStream.ReasonsExactly | webui/api/logstream.go:61-106 | The reason given is initial exactly for an empty cursor, expired history exactly for an entry of this instance that has left the ring, changed instance exactly for a well-formed cursor of another instance, and otherwise an invalid cursor |
| LogStream.RingStep | webui/api/logstream.go:131-157 | After every line the ring holds the last min(seq, 1000) entries with consecutive numbers |
| LogStream.RingRead | webui/api/logstream.go:61-106 | Reading the ring from its start gives those entries in order |
| LogStream.LogBroadcaster.Handle | webui/api/logstream.go:131-157 | Offers the line to every open channel without waiting and to no closed one |
| LogStream.OnlyFullChannelsMiss | webui/api/logstream.go:131-157 | An entry is missed only by a channel that is 1256 entries behind, and the first miss is where the gap begins |
| LogStream.LogBroadcaster.Subscribe | webui/api/logstream.go:61-106 | The channel starts with exactly the entries after the decided number, under an ID never used before |
| LogStream.LogBroadcaster.Receive | webui/api/logstream.go:61-106 | The connection gets the entries in the order they were sent |
| LogStream.OfferKeeps | webui/api/logstream.go:131-157 | What a channel was sent is strictly increasing and genuine always, and complete from the resumption up to the first overflow, also after it has happened |
| LogStream.ReceivedIsConsecutive | webui/api/logstream.go:61-157 | A subscriber resumed at n receives n+1, n+2, ... across the switch from history to live for exactly the entries sent before its channel first overflowed, whenever they are received |
| InFlight.Limiter.Acquire | notifier/inflight.go:43-51 | Grants exactly while fewer than capacity are held, never more |
| InFlight.Limiter.Release | notifier/inflight.go:43-51 | Gives a slot back once however often it is called |
| InFlight.SumsAgree | notifier/inflight.go:76-139 | Channel sums and event sums both equal the number of drops |
| InFlight.CountsAreExact | notifier/inflight.go:76-116 | The counters say for every channel and every kind of event exactly how many such drops there were |
| InFlight.SumsOfParts | notifier/inflight.go:141-161 | Counted by channel or by kind of event, any collection of drops is counted completely |
| InFlight.DiagnosticsBalance | notifier/inflight.go:76-139 | In every run the wait group equals armed timers plus running callbacks and is never negative; written + held + pending + discarded = dropped, drop by drop; and in each of these places channel sum and event sum both equal the number of drops |
| InFlight.DropsAreBooked | notifier/inflight.go:76-116 | Every drop of a known kind is counted while the limiter is open, and only a stop discards what is pending |
| InFlight.LinesAreWritten | notifier/inflight.go:110-139 | What a first line or a summary writes is exactly what was taken out of the counters for it |
| InFlight.LinesAreLimited | notifier/inflight.go:100-139 | Over every run there is at most one log line more than there are timer windows, and no drop is pending without a window that will report it |
| InFlight.NothingRunsAfterStop | notifier/inflight.go:163-184 | Once a stop has waited, no callback runs and none can start again |
| Bus.WithoutAt | notifier/bus.go:70-82 | Removing one registration is cutting the list at its first occurrence |
| Bus.WithoutCounts | notifier/bus.go:70-82 | It takes one registration of that subscriber and none of any other |
| Bus.EventBus.Subscribe | notifier/bus.go:62-66 | Appends to the list of one event type |
| Bus.EventBus.Unsubscribe | notifier/bus.go:70-82 | The in-place removal is that cut, for that event type only |
| Bus.EventBus.SubscribeChan | notifier/bus.go:89-105 | Hands out an ID never used before |
| Bus.EventBus.Admit | notifier/bus.go:129-169 | Registers in the wait group exactly the callbacks it will run, none after the freeze |
| Bus.DrainIsFinal | notifier/bus.go:174-179 | After a drain has returned no subscriber callback runs or can start, in every continuation |
| Bus.EveryCallbackRuns | notifier/bus.go:129-179 | Every subscriber of everything published before the freeze is called back: still to start, running or ended, and all ended once a drain has returned |
| Config.TargetIsFixed | config/validate.go:75-89 | Validating a validated target changes nothing |
| Config.RuleIsFixed | config/validate.go:98-126 | The same for rules |
| Config.NormalizeTargetIDs | config/validate.go:132-149 | References are accepted unchanged exactly when all are positive and distinct |
| Config.AlertsAreFixed | config/validate.go:285-395 | The same for alert policy, email, webhook and monitoring push |
| Bundle.CheckedSettingsAreNormal | webui/api/bundle_v3.go:599-646 | Accepted settings are accepted again unchanged |
| Bundle.SettingsRoundTrip | webui/api/bundle_v3.go:683-702 | Settings written to the store pass the store's own validation without a default and come back as they were |
| StoredSettings.LoadedAreNormal | config/store.go:1295-1373 | Whatever settings load are settings an export can carry: validation leaves them alone and no text changes on the way out and back |
| StoredSettings.EmptyStoreLoads | config/store.go:1295-1373 | An empty store loads, with the documented defaults |
| StoredSettings.FreshInstallIsNormal | webui/api/bundle_v3.go:343-365 | The snapshot of a fresh installation, no alert ever saved, is one that exports, is accepted and round-trips |
| Bundle.SortIntsAscending | webui/api/bundle_v3.go:726-732 | The insertion sort in place leaves the sorted permutation |
| Bundle.ToBundle | webui/api/bundle_v3.go:315-427 | The export loops build the specified bundle, references sorted, unsaved alert rows filled with defaults |
| Bundle.ValidateTargets | webui/api/bundle_v3.go:456-481 | Target IDs are accepted exactly when positive and distinct, and each target is normalised; BundleFacts.BundleAcceptedExactly states what that means on the input |
| Bundle.ValidateRules | webui/api/bundle_v3.go:483-519 | The loops accept and normalise the rules as specified, references and all; BundleFacts.BundleAcceptedExactly states on the input which are accepted and that action, references, comment and IPv6 switch are kept |
| Bundle.ValidateBundle | webui/api/bundle_v3.go:437-553 | The validation as written accepts and normalises a bundle as specified; BundleFacts.BundleAcceptedExactly states it on the input |
| BundleFacts.BundleAcceptedExactly | webui/api/bundle_v3.go:437-553 | A bundle is accepted if and only if its version is 3, its export IDs are positive and distinct, every target has one of the four platform names, a region and a resource, every rule has a host, known words, ports unless it is ICMP and distinct references to targets of the bundle, and every setting and alert row is valid; what is kept are the same targets and rules, cleaned and in order, with action, references, comment and IPv6 switch as given |
| BundleFacts.SettingsLoadExactly | config/store.go:1295-1373 | Stored settings load if and only if each text is blank or valid; a blank one becomes its documented default and every other one its clean form, never a default |
| BundleRoundTrip.ExportIsAccepted | webui/api/bundle_v3.go:437-553 | Validation accepts the export of every normal snapshot, alert rows saved or not, and changes nothing in it |
| BundleRoundTrip.FilledIsNormal | webui/api/bundle_v3.go:343-365 | What an export fills into unsaved alert rows makes every stored row one that validation leaves alone |
| BundleRoundTrip.Store.InsertTargets | webui/api/export.go:127-186 | The ID map is a bijection from export IDs onto the fresh, increasing store IDs |
| BundleRoundTrip.Store.Import | webui/api/export.go:127-186 | All or nothing: it succeeds exactly when the database does not fail and every reference has a target, and then the tables are the bundle under the new IDs |
| BundleRoundTrip.Store.LoadSnapshot | config/store.go:1182-1239 | A dangling reference or an invalid setting is an error, never repaired |
| BundleRoundTrip.ImportLoads | config/store.go:1182-1239 | What an import wrote always loads, with no reference dangling and no setting changed |
| BundleRoundTrip.ExportAfterImport | webui/api/export.go:127-186 | Exporting what was imported gives the imported bundle under the new IDs |
| BundleRoundTrip.RoundTrip | webui/api/bundle_v3.go:315-427 | Export, import, export is the identity up to a strictly increasing renaming of target IDs, on every normalised snapshot whose references exist, ACCEPT and DROP rules alike, alert rows saved or not |
| BundleFacts.ImportUndoesExport | webui/api/export.go:127-186 | Importing the export of a normal snapshot restores it: every target under a new ID, every rule with host, protocol, ports, action, comment, IPv6 switch and references to the same targets, every setting, and every alert row that was ever saved |
| Email.CanonicalIsScan | notifier/email.go:414-416 | The three replacement passes are one left-to-right scan for CR, LF and CRLF |
| Email.ScanIsIdempotent | notifier/email.go:414-416 | Canonicalising twice is canonicalising once |
| Email.ScanIsOnlyCRLF | notifier/email.go:414-416 | In the result every CR is followed by LF and every LF preceded by CR |
| Email.LinesFit | notifier/email.go:418-423 | The body lines have at most 76 characters, all but the last exactly 76, and together are the encoded text (section 6.8 of RFC 2045) |
| Email.Fold | notifier/email.go:418-423 | The folding loop writes those lines with CRLF between them |
| Email.UnfoldsToText | notifier/email.go:418-423 | Taking the line breaks out again gives the encoded text back |
| Email.SubjectLinesFit | notifier/email.go:402-411 | Encoded words of at most 75 characters give subject lines of at most 76, field name included |
| Email.BuildMessage | notifier/email.go:401-426 | The whole message: headers, folded subject, and the folded encoding of the canonical body |

## Left out

- EditedRule.AnEditIsDeleted: an edit in place is a binding of the same ID to another rule; the API call that makes it belongs to others and is not part of this model.
- Scheduler.Syncer.ApplyStateLocked: of a runtime state only version and enabled flag are kept, because no decision of the loop but the ticker's length depends on the rest; ticker intervals and the state-applied hook are left out.
- Round.CountersAreFindings: the sums of added, deleted and cleaned-up rules that a round also reports only add fields of the findings and are left out.
- LogQueue.QueuedLogWriter.Take: a taken record counts as handed to the writer; the database write behind it and its cancellation are left out.
- Bundle.ValidateBundle: bundles start as complete values; JSON decoding, the presence checks of single fields and the `exported_at` metadata are left out.
- BundleRoundTrip.Store.Import: SQLite is abstracted to tables with fresh increasing IDs and a failure flag that rolls everything back.
- Email.BuildMessage: base64 and the encoded-word encoder are parameters; the SMTP session is left out.
- Paging.GetTokenSnapshot: the read deadline appears as a number of pages.
- Bus.EventBus.Admit: the non-blocking sends to channel subscribers and the log ingress behind it are left out; they wait for nothing.
- Target.RecordAttempt: the source fills its result while the protocol runs; here it is filled afterwards from a record of the run, in the same order.
- Case mapping covers ASCII only; other letters are left as they are.
- Parsing and formatting of addresses (`net/netip`) is library code; a field is blank, a malformed text or a canonical block, and the family flag of a resolved address is taken from the resolver.
- Wording of issues and logs; the `subject` of an issue holds what its message names, a text, a described cloud rule or a count, with addresses in canonical spelling.
- Error texts and SDK codes (syncer/retry.go) are flags: retryable, already exists, already gone, version mismatch, not found. Local errors count as not retryable.
- Durations, DNS server addresses, URLs and byte lengths are recognised by library code that enters as a parameter, assumed only to find no duration in a blank text and to recognise the documented default durations.
- Real time: waits between attempts are left out, and cooldowns run on a virtual clock; the answers of the three attempts of a sync are parameters.
- Fixed-width counters: the counters and sums of the source are 64 bits wide, those of the model unbounded. Parsed and stored integers have their 64-bit range.
- `BuildRuntimeState` and `RuntimeManager` (syncer/state.go) construct and swap objects around the modelled breaker operations.
- `ExpandPorts` on lists with several items (merged Lighthouse ports), `Status`, `DryRun`, CRUD handlers, zone tables, health evaluation, the supervisor, push loops and the web frontend are plumbing around the parts above.
- SDK clients, HTTP, TLS, DNS sockets, file permissions and process locks; their outcomes are nondeterministic.
