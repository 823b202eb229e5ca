# The bonus-exchange protocol and its neighbours

A Dafny model of the parts of the repository whose correctness is a protocol, a parser or an
order, with proofs of what they promise.

**The at-most-once bonus exchange.** `internal/bonusexchange` keeps intents, attempt markers,
outcomes, tombstones (retention records) and forget markers in a content-addressed record store
that publishes one name at a time without replacing and has no compare-and-swap across records.
It is modelled twice, and the two models share one program:

* `Program` says, place by place, which store operation a running reserve, store-outcome, status,
  prune or forget performs next (`Want`) and where it goes on the answer (`Advance`).
* `Protocol` runs any number of such calls, of any number of sessions, side by side. Every store
  operation is one step, a set verification is one step per record, a durability confirmation
  verifies its set twice, and a session may die between any two steps. History is kept beside the
  store: first publications, granted authorities, form posts, answered statuses. `Invariant`,
  `Preservation`, `Progress` and `Safety` prove an inductive invariant; `Theorems` has the results
  over whole runs.
* `Metastore` and `Session` are the imperative code: a bound store whose primitives accept only
  the operation `Want` names, and the session methods with their receipts, budgets and error
  classes. With `exclusive` set no other session acts, and the contracts say exactly what the call
  did to the store; `Sequential` holds the predicates they use and `Recovery` what follows for
  crashed and repeated calls. `Scripts` holds the small facts about program places and loops.
* No call fails without a reason. A bound store counts the operations that failed for a reason the
  store does not explain and the crash hooks that fired; `Calm` says that there were none, and
  `Budget` says when the limits hold what a call reads. A calm call with room ends as the store
  determines, and whatever can be reserved, stored, inspected, pruned, forgotten or listed is.
* `Journal` and `Refinement` tie the two together. A bound store writes a journal of its session,
  and its validity says that the journal is legal: calls begin only where calls begin, go on only
  with the operation their place wants, and authorities are bound only as the protocol binds them.
  Every session method extends the journal, and only the session methods and their primitives do.
  `Refinement.SessionIsRun` turns a legal journal, with any actions of others in between that lead
  to the stores it saw, into a run of `Protocol`; `Refinement.OpenedIsRun` starts where the session
  is opened.
* `Lifecycle` has runs that exist: one from preparation to an empty store, one that leaves a stray
  marker, and the second authority a different removal order would allow.
* `Driver` is the submit command; `Inventory` and `Listing` are the operation inventory.

**Strict decoders.** `Credentials`, `Literals` and `Bundle` are the surrogate-aware string scanner
and the bundle decoder (RFC 8259, section 7; UTF-8 per RFC 3629). `Format` is the duplicate-key
walker and the canonical decoder, `Wire` the JSON structure of the five records and their parts,
`Addressing` their codecs, their IDs and their validation on the written form.

**Orders and encodings.** `Versions` and `Releases` are release versions (section 11 of Semantic
Versioning 2.0.0), the release decision and the publication steps; `Bencode` is the bencode
encoder (BEP 3).

## Assumptions

* SHA-256 is taken to be collision free (`Addressing.CollisionFree`). A reference in the protocol
  model is the record it addresses, and "the record with this ID" is a record value:
  `Addressing.IdInjective` proves from the assumption that an ID determines its record and
  everything the record refers to. IDs are ordered by an arbitrary injective `rank`.
* `Prepare` draws a fresh operation identity, so a removed intent never comes back
  (internal/bonusexchange/types.go:105-114).
* The store contract `Program.Responds` is what internal/metastore/record.go and record_remove.go
  do: an import reports exactly one of newly written and already present, a removal exactly one of
  removed (or residue recovered) and already absent, after taking the name away perhaps more than
  once, an inventory is complete and sorted by ID or fails. Any operation can fail, and a failed
  write may or may not have taken effect.
* The spelling of JSON tokens in bytes is `Format.Lexical`: a value of texts, integers and flags is
  spelled on one line and its tokens are read back. What the tokens of a record are is not assumed
  but proved in `Wire`.
* Authorities of a session are made by its `LoadIntent` and `ReserveAttempt` only (`Session.Session.Loaded`,
  `Session.Session.Granted`): their types are not exported, and a decoded copy has none
  (internal/bonusexchange/repository.go:829-873).
* Between the plan and the publication of a release nobody else writes tags: the workflow
  serialises its runs.

## What the code does where its own documentation says otherwise

* The help text of the prune command (internal/cli/site_bonus_exchange.go:1367-1370) lists the
  removals as outcome, attempt and intent. The code removes the intent first, then the marker,
  then the outcome (internal/bonusexchange/retention.go:157-162); the model follows the code. With
  outcome and marker gone first a second authority can be had: `Recovery.OrderMatters` for single
  calls, `Lifecycle.ReversedOrderGrantsTwice` as a run.
* `publish` promises that a failure at any step leaves at most an unpublished draft
  (scripts/release.py:198-199). A failure may also leave the tag it created, and a final call that
  took effect leaves a public release when its answer is lost or does not pass the check of the
  response (scripts/release.py:241-244). `Releases.FailedYetPublic` says that a failed publication
  leaves one if and only if it failed in one of these two ways, `Releases.FailedYetPublicHappens`
  gives both cases.
* The comment in `ReserveAttempt` says that rerunning prune removes a marker left by a stale
  reservation, and that forget refuses while it exists
  (internal/bonusexchange/repository.go:165-174). Rerunning prune removes it if and only if the
  operation named is the intent's, a tombstone selects the intent and no forget marker does
  (`Recovery.StrayMarkerRemovable`). Forget looks for it before and after it publishes its own
  marker, and a reservation may publish in between (`Lifecycle.StrayMarkerRun`). Then prune stops at
  the forget marker and forget refuses for the stray marker: no rerun of either, in whatever order
  and under whatever operation, changes the store again (`Recovery.StuckStore`,
  `Recovery.StuckForever`). The stray marker authorises nobody (`Theorems.AtMostOnce`,
  `Theorems.StaleNeverSucceeds`).

## Model

| member | source | states |
|---|---|---|
| Records.RetentionDeterministic | internal/bonusexchange/types.go:212-226 | A tombstone validates for the session's store if and only if it is the one built from its own linked chain and the store's identity, so its content is determined by intent and outcome; its terminal state is the one the receipt tells |
| Records.ForgetDeterministic | internal/bonusexchange/types.go:237-244 | A forget marker validates for the session's store if and only if it is the one built from its valid tombstone |
| Records.ValidChain | internal/bonusexchange/repository.go:775-781 | The marker derived from a valid intent matches that intent |
| Records.StateTells | internal/bonusexchange/repository.go:793-804 | The state of a valid receipt is confirmed, rejected, unknown or not submitted exactly as its outcome text says; it is not submitted exactly if no request was attempted, and rejected only after a complete response |
| Records.ReceiptKinds | internal/site/bonus_exchange.go:274-323 | A receipt validates if and only if it is one of four kinds: confirmed, rejected, unknown after one form post, or not submitted after none, each with its counters, code and stop reason |
| Records.IntentMeans | internal/bonusexchange/types.go:140-154 | An intent validates if and only if the marker derived from it does, its schema and input mode are the fixed ones, and its time and limits are valid |
| Records.LimitsMean | internal/site/bonus_exchange.go:48-60 | The limits admit one review request, two requests of which one form post in a session, and sizes up to fixed bounds |
| Records.IdMeans | internal/bonusexchange/types.go:487-493 | An ID is the prefix and sixty-four lower-case hexadecimal digits |
| Records.RouteMeans | internal/site/metafile.go:420-431 | A route is one to 128 lower-case letters, digits, points, underscores and dashes |
| Records.TextMeans | internal/bonusexchange/types.go:495-505 | A text is not empty, within its size in bytes, and without control characters |
| Records.TimeMeans | internal/bonusexchange/types.go:125-154 | A time is written by its parts: date, time of day, and a fraction that does not end in zero |
| Records.TimesAccepted | internal/bonusexchange/types.go:125-154 | And every string written by such parts is a time |
| Invariant.GrantUnique | internal/bonusexchange/repository.go:201-223 | Two submission authorities for one intent are the same authority: all go to the first publisher of its marker |
| Invariant.OutcomeUnique | internal/bonusexchange/repository.go:234-276 | Two outcomes ever published for one intent are equal |
| Invariant.ThreadStable | internal/bonusexchange/repository.go:165-174 | Whatever other sessions do, a running call still knows what it knew at its place |
| Preservation.MarkerKept | internal/bonusexchange/retention.go:157-162 | A step that leaves the intent in the store leaves its published marker there too: the reason for the removal order |
| Preservation.OutcomeKept | internal/bonusexchange/retention.go:157-162 | A step that leaves the intent in the store leaves its published outcome there too |
| Safety.StepKeeps | internal/bonusexchange/repository.go:156-416 | Every store operation of every call keeps the invariant |
| Theorems.NextKeeps | internal/bonusexchange/repository.go:52-416 | Every action keeps the invariant: sessions opening, dying, preparing, loading, starting calls, and every single store operation |
| Journal.Grows | internal/bonusexchange/repository.go:746-758 | What the journal of a session proves it to know stays known: authorities keep their intent and, once bound, their observation |
| Journal.LogKnows | internal/bonusexchange/repository.go:220-291 | A call that has acquired holds the last authority, unbound; one that stored an outcome has published it; one that answered a status has its answer on record |
| Refinement.ActionIsNext | internal/metastore/bound_records.go:62-196 | Every action of a legal journal, taken where the store is what it found, is an action of the interleaving model, and leaves the world as the journal says |
| Refinement.CanPerform | internal/metastore/bound_records.go:62-196 | Wherever the store is what a legal action found, the session can take it |
| Refinement.ElsewhereTied | internal/bonusexchange/repository.go:165-174 | Whatever others do, what the journal proves the session to know stays true |
| Refinement.SessionIsRun | internal/bonusexchange/repository.go:156-416 | A legal journal, interleaved with any actions of others that lead to the stores it saw, continues a run of the interleaving model, and what it proves the session to know is true where the run has got to |
| Refinement.OpenedIsRun | internal/bonusexchange/repository.go:92-101 | The same from the moment the session is opened in any run: that the journal's view is true of the world is established, not assumed |
| Refinement.SubmitConfirmed | internal/cli/site_bonus_exchange.go:724-793 | In every such run: if the journal shows a bound authority that posted, its outcome published and a confirmed status, the status is about that outcome, its receipt is confirmed, and that authority's call made the only form post for the intent |
| Theorems.ConfirmedSubmission | internal/cli/site_bonus_exchange.go:724-793 | Over runs: for a bound authority with a published outcome, any confirmed answer names that outcome, nobody else posted for the intent, and a post of its call is the only one |
| Theorems.StaleNeverSucceeds | internal/bonusexchange/repository.go:165-223 | A reservation, store-outcome or prune whose intent is gone before it verifies it never acquires, stores or completes, whatever it still publishes |
| Lifecycle.WholeLife | internal/bonusexchange/repository.go:156-291 | There is a run in which an intent is reserved, submitted, stored, pruned and forgotten, and the store ends empty |
| Lifecycle.StrayMarkerRun | internal/bonusexchange/retention.go:243-280 | There is a run after which tombstone, forget marker and a stray attempt marker of one intent are in the store |
| Lifecycle.ReversedOrderGrantsTwice | internal/bonusexchange/retention.go:157-162 | After removing outcome and marker before the intent, the calls of the code reach a second authority for the same intent |
| Theorems.RunInv | internal/bonusexchange/repository.go:156-416 | The invariant holds at every instant of every run |
| Theorems.AtMostOnce | internal/bonusexchange/repository.go:156-232 | Over any run no two authorities and no two form posts are for one intent, and every post has its authority |
| Theorems.MarkerInvariant | internal/bonusexchange/repository.go:165-223 | While an intent is present without its marker, no marker was ever published for it, nobody is authorised, nothing was posted |
| Theorems.OneOutcome | internal/bonusexchange/repository.go:246-276 | At most one outcome is ever published for an intent in a run |
| Theorems.NeverMultipleOutcomes | internal/bonusexchange/repository.go:686-688 | No call ever ends with the multiple-outcomes error |
| Theorems.StatusSound | internal/bonusexchange/repository.go:293-416 | Prepared: when the marker was looked up none had been published and nobody was authorised; submission unknown: the marker was published and no outcome was when outcomes were listed; otherwise the one published outcome, and a terminal verdict is the one its receipt tells |
| Theorems.VerdictStable | internal/bonusexchange/repository.go:293-416 | All decided statuses of an intent name one outcome and agree; one begun after a decided one is never prepared or submission-unknown |
| Theorems.TombstoneStable | internal/bonusexchange/types.go:212-226 | Decided statuses and all tombstones of an intent agree, and there is one tombstone only |
| Theorems.ConfirmedIsStored | internal/cli/site_bonus_exchange.go:740-793 | A confirmed status is about the very outcome stored for the intent, by whatever session, and its receipt is confirmed |
| Theorems.UnknownPermanent | internal/bonusexchange/retention.go:85-100 | A published marker without a stored outcome is never removed, nor its intent, and no tombstone is made of it |
| Theorems.NeverAgain | internal/bonusexchange/repository.go:201-203 | Once the publishing call has acquired, returned or died, nobody is ever authorised for the intent again |
| Theorems.RunGrows | internal/bonusexchange/repository.go:156-291 | Publications never disappear from history or change their time along a run |
| Metastore.SortedUnique | internal/metastore/record.go:565-655 | An inventory sorted by ID is determined by the set of records it holds |
| Budget.InventoryBytes | internal/bonusexchange/retention.go:403-418 | A complete sorted inventory has the size of what the store holds of its kind, and can be loaded if that fits the budget and no record exceeds its limit |
| Metastore.Bound.Load | internal/metastore/record.go:408-464 | A load finds exactly what is present, changes nothing, and reads at most the record's size and the record limit; it fails only on an oversized record or a fault |
| Metastore.Bound.Inventory | internal/metastore/record.go:565-655 | An inventory is complete for the store at one instant and strictly sorted by ID, or it fails; it never completes above the entry, path or record budget, and is cut short only there |
| Metastore.Bound.Import | internal/metastore/record.go:278-379 | No-replace publication: newly written exactly when it was absent; a fault may or may not have published |
| Metastore.Bound.Remove | internal/metastore/record_remove.go:72-175 | Removal, in up to three instants between which others may republish the name, ends with the record absent and reports exactly one of removed and already absent, with at most three writes; without others it fails only after a fault |
| Session.AttemptAuthority.BindOutcome | internal/bonusexchange/repository.go:746-758 | The first observation binds the authority for good; afterwards only the same one is accepted |
| Session.Session.LoadIntent | internal/bonusexchange/repository.go:110-151 | Grants authority over an intent that is in the store and validates, and reports a missing one as not found; every failure has its reason: closed, absent, invalid, over the record limit, or a fault |
| Session.Session.ScanOutcomes | internal/bonusexchange/repository.go:638-695 | Within the byte budget: the one linked outcome of the operation or none; corrupt only on a broken link, a second match or an invalid record; inconclusive only without room or after a fault |
| Session.Session.VerifyRecordSet | internal/metastore/record.go:513-531 | Complete only if every record was present, one by one in the given order; otherwise cancelled or unverified, a missing record not told apart; it completes if all are present and within the record limit and nothing fails |
| Session.Session.Reserve | internal/bonusexchange/repository.go:175-218 | Which end a reservation reaches is determined by the store; it acquires exactly when intent is present and marker and outcome are absent |
| Session.Session.ReserveAttempt | internal/bonusexchange/repository.go:156-232 | Authority is handed out exactly with the acquired flag, for the derived marker, unbound, after one write, and only for the reviewed offer, field by field; refused as invalid exactly when the authority does not match or some field of the fresh review differs; a reservation that nothing in store and limits stands against is acquired unless something fails |
| Session.Session.Publish | internal/bonusexchange/repository.go:265-290 | Adds exactly the outcome; durable exactly when this call wrote it and the chain verified, which it does if the chain is there, within the limits, and nothing fails |
| Session.Session.StoreOutcome | internal/bonusexchange/repository.go:234-291 | Stores the outcome built from the bound observation, recorded at the end of the observation, field by field that of intent and receipt; a different observation is refused and changes nothing; without matching authority nothing is bound or written; otherwise it fails only for a missing chain, the limits or a fault |
| Session.Session.MatchAll | internal/bonusexchange/retention.go:403-418 | One pass loads every listed record within the budget and finds the unique match or none |
| Session.Session.ScanPass | internal/bonusexchange/retention.go:390-423 | The listing is complete for a store found during the call and every listed record is accounted for; a second listing that differs from the first always ends incomplete, and in a store nobody else changes only missing room or a fault does |
| Session.Session.ScanStable | internal/bonusexchange/retention.go:390-458 | Two passes refine one lookup: whatever others do, the result is the unique match, or the proof that there is none, in the store at the instant of the second listing; both passes are accounted for |
| Session.Session.RetainedOriginalsRemain | internal/bonusexchange/retention.go:333-344 | Says whether any record of the tombstone's chain is still present |
| Session.Session.InspectMarker | internal/bonusexchange/repository.go:366-416 | The marker decides the live state; an outcome without its marker is corrupt |
| Session.Session.Status | internal/bonusexchange/repository.go:293-416 | Reports the status the store determines: forget marker, else tombstone, else live chain; a terminal state is the one the receipt tells; not found exactly names an operation without any record, corrupt one whose records contradict each other or a store with an invalid record; otherwise it fails only without room or after a fault |
| Session.Session.RemoveRecord | internal/bonusexchange/retention.go:162-175 | Each removal is accounted for once, as removed or already absent |
| Session.Session.RemoveChain | internal/bonusexchange/retention.go:157-180 | Removes intent, marker and outcome in that order; at every failure the store lacks exactly a prefix of the chain |
| Session.Session.CompletePrune | internal/bonusexchange/retention.go:141-193 | Success removed the chain and kept the tombstone; removed plus already absent is three and writes add up |
| Session.Session.PruneTerminal | internal/bonusexchange/retention.go:102-138 | Publishes the tombstone before anything is removed and leaves a stage of its prune |
| Session.Session.FindTombstone | internal/bonusexchange/retention.go:43-76 | Finds the tombstone to resume from, and stops at a forget marker |
| Session.Session.Prune | internal/bonusexchange/retention.go:26-139 | Changes the store only to stages of the one tombstone it determines; what can be pruned or resumed is pruned to the last stage unless something fails; every refusal names its own reason in the store (`PruneRefused`) or an oversized record; bytes read stay within the budget |
| Session.Session.LoadForgettable | internal/bonusexchange/retention.go:230-246 | Finds the tombstone valid, of this operation and without originals, or says which of these fails |
| Session.Session.PublishMarker | internal/bonusexchange/retention.go:247-280 | Publishes the forget marker of a tombstone without originals and leaves a stage of its erasure |
| Session.Session.ConfirmMarker | internal/bonusexchange/retention.go:271-290 | Behind the published marker it refuses exactly while originals remain, and confirms the marker otherwise unless something fails |
| Session.Session.CompleteForget | internal/bonusexchange/retention.go:271-320 | Refuses while originals remain; otherwise removes tombstone and marker in that order behind a confirmed marker |
| Session.Session.Forget | internal/bonusexchange/retention.go:199-320 | Changes the store only to stages of erasing this tombstone; what can be forgotten or resumed is forgotten, both records gone, unless something fails; every refusal names its own reason in the store (`ForgetRefused`) or an oversized marker; bytes read exceed the budget by at most one record |
| Sequential.StatusUnique | internal/bonusexchange/repository.go:293-416 | A store determines at most one status of an operation |
| Sequential.StatusMeans | internal/bonusexchange/repository.go:293-416 | In a store of valid records the status is forgetting exactly if a forget marker is about the intent, else pruning or pruned exactly if a tombstone is, else prepared without marker, submission unknown with marker and no outcome of the operation, and terminal with both |
| Sequential.PrunableMeans | internal/bonusexchange/retention.go:43-107 | In a store of valid records a prune can act exactly if the operation is the intent's, no forget marker is about it, and either one tombstone is, or none is and intent, marker and the one outcome of the operation are there |
| Sequential.StatusAnswers | internal/bonusexchange/repository.go:293-416 | A store of valid records gives exactly one of three answers: a status, not found, or corrupt |
| Scripts.PruneRefusals | internal/bonusexchange/retention.go:35-101 | A prune of a valid operation ID refuses exactly when there is nothing to prune, and in a store of valid records with exactly one error, which the status of the operation determines |
| Sequential.ForgetRefusals | internal/bonusexchange/retention.go:208-283 | A forget of a valid operation ID refuses exactly when there is nothing to forget, and in a store of valid records with exactly one error, which marker, tombstone and originals determine |
| Sequential.PrunableUnique | internal/bonusexchange/retention.go:77-107 | A store determines the tombstone a prune publishes or resumes from |
| Recovery.StagePrunable | internal/bonusexchange/retention.go:157-161 | Every stage of a prune can be resumed, with the same tombstone |
| Recovery.PruneResumes | internal/bonusexchange/retention.go:26-193 | However many prunes crashed wherever they did, the next can go on, and after a success the store is that of one uninterrupted prune, for good |
| Recovery.PruneTouches | internal/bonusexchange/retention.go:26-193 | A completed prune replaces exactly intent, marker and outcome by the tombstone; every other record is unchanged |
| Recovery.ForgetResumes | internal/bonusexchange/retention.go:195-320 | Until the last removal the marker or the tombstone exists and a rerun can complete; after it the store is the old one without the two and later calls fail without changing it |
| Recovery.StatusAfterPrune | internal/bonusexchange/repository.go:315-336 | At every stage of a prune the status is pruning exactly while an original that was there has not had its turn, pruned otherwise, and after the last stage forget can start |
| Recovery.StrayMarkerRemovable | internal/bonusexchange/retention.go:43-75 | A prune removes a marker left without its intent if and only if the operation is the intent's, no forget marker selects it and a tombstone does |
| Recovery.StuckStore | internal/bonusexchange/retention.go:243-280 | The three records of the stray-marker run are a store in which a forget marker stands beside the attempt marker |
| Recovery.StuckForever | internal/bonusexchange/retention.go:48-60 | In such a store no sequence of prunes and forgets, under any operation identities, succeeds or changes anything |
| Recovery.OrderMatters | internal/bonusexchange/retention.go:151-162 | No stage of a prune lets a reservation acquire; with outcome and marker removed before the intent one does |
| Recovery.WholeLife | internal/bonusexchange/repository.go:156-291 | Reserve, store, prune and forget take the status through its states and leave the first store without the intent |
| Driver.Preflight | internal/cli/site_bonus_exchange.go:614-647 | Goes on only with an intent that matches the invocation field by field and whose status is prepared, which it does unless something fails, and changes nothing |
| Driver.SubmitAndStore | internal/cli/site_bonus_exchange.go:724-760 | Exactly one submission; the outcome stored is built from its own receipt and linked, and the site's result is of one submission; durable only if the store gained exactly it, and always if nothing stands against it and nothing fails |
| Driver.ConfirmedIsOwn | internal/cli/site_bonus_exchange.go:786-791 | A confirmed status of a store holding the own outcome is about that outcome, whose receipt is confirmed |
| Driver.Confirms | internal/cli/site_bonus_exchange.go:724-793 | From a prepared store the marker and a confirmed result lead to the confirmed status of exactly that outcome, and the limits hold what reading it needs |
| Driver.Submit | internal/cli/site_bonus_exchange.go:520-793 | At most one submission and none without acquisition; what is submitted is the offer the invocation, the intent and the fresh review agree on, field by field; success means acquired, submitted once, own outcome durably stored, final status confirmed, and a journal that proves all of it whatever others do; an existing marker is never acquired; a prepared operation is submitted and a confirmed submission succeeds unless something fails |
| Driver.SubmitMeans | internal/cli/site_bonus_exchange.go:724-793 | What a successful submit means among other sessions: its confirmed status is about its own outcome, and the only post for the intent is its own |
| Inventory.Join | internal/bonusexchange/repository.go:495-548 | The full outer join of live intents, tombstones and forget markers, each operation once; succeeds if and only if no identity is duplicated or disagrees |
| Inventory.JoinRetained | internal/bonusexchange/repository.go:499-520 | Joins the tombstones into the rows, failing exactly on a conflict |
| Inventory.JoinForgotten | internal/bonusexchange/repository.go:521-543 | Joins the forget markers into the rows, failing exactly on a conflict |
| Listing.AgreeingInventories | internal/bonusexchange/repository.go:495-548 | The join of complete inventories succeeds exactly when the store's identities agree |
| Listing.LoadDistinct | internal/bonusexchange/repository.go:456-471 | Loads every intent within the budget and fails on a shared operation identity |
| Listing.ListAllStable | internal/bonusexchange/retention.go:460-514 | Two equal inventories of one kind, every record of both valid, complete for the store at the instant of the second |
| Listing.SortRows | internal/bonusexchange/repository.go:549-551 | The same rows, strictly sorted by intent record ID |
| Listing.ListOperations | internal/bonusexchange/repository.go:423-566 | Exactly the sorted join of three inventories, each complete for the store at the instant of its second listing, within the record limit; in a store nobody else changes, the rows the store determines, and a failure only on an invalid record, disagreeing identities, more operations than the limit, missing room or a fault |
| Credentials.DecodeHex4 | internal/cli/reconcile_credentials.go:207-226 | The 16-bit accumulator yields the number four hexadecimal digits stand for, and fails exactly when one is not a digit or missing |
| Credentials.DigitTable | internal/cli/reconcile_credentials.go:207-226 | A byte is a hexadecimal digit of value d exactly if it stands at place d of the lower-case or the upper-case table |
| Credentials.Utf8Reads | internal/cli/reconcile_credentials.go:160-172 | The encoding of every scalar value by the table of section 3 of RFC 3629 is one well-formed sequence and is read back |
| Credentials.Utf8Writes | internal/cli/reconcile_credentials.go:160-172 | A well-formed sequence is the encoding of its value: there is no other |
| Credentials.Utf8Strings | internal/cli/reconcile_credentials.go:160-172 | Bytes are valid UTF-8 exactly if they encode a sequence of scalar values |
| Credentials.RuneBeforeQuote | internal/cli/reconcile_credentials.go:166-172 | A rune that starts before the closing quote ends before it, whatever the bytes |
| Credentials.ScanUnicode | internal/cli/reconcile_credentials.go:182-199 | A code escape or pair advances the index to at most the closing quote, or the whole scan fails |
| Credentials.ScanCredentialString | internal/cli/reconcile_credentials.go:160-200 | The index-advancing scan terminates, never passes the closing quote, and accepts exactly the quoted UTF-8 bytes that the reading from the front accepts |
| Literals.ScanPaired | internal/cli/reconcile_credentials.go:164-200 | A well-formed literal is accepted exactly when its surrogate escapes are paired |
| Literals.PairedTwice | internal/cli/reconcile_credentials.go:187-199 | Reading pairs from the front agrees with: every high escape is followed by a low one and every low one preceded by a high one |
| Literals.LosslessPaired | internal/cli/reconcile_credentials.go:201-205 | Decoding spells the same UTF-16 code units as the literal exactly when it is paired, so nothing is replaced exactly in accepted literals |
| Literals.EscapesRoundTrip | internal/cli/reconcile_credentials.go:160-205 | Any scalar sequence written in escapes, by any writer of four digits, is accepted and decodes back to itself |
| Literals.EscapesDecode | internal/cli/reconcile_credentials.go:160-226 | The writer that takes the four digits of each code unit from the lower-case or the upper-case table is such a writer |
| Literals.ShortTable | internal/cli/reconcile_credentials.go:160-205 | The eight two-character escapes and what they stand for |
| Literals.StrictDecodes | internal/cli/reconcile_credentials.go:160-205 | Accepts exactly the well-formed paired literals and returns what they spell, in scalar values only |
| Literals.DecodeStrictCredentialString | internal/cli/reconcile_credentials.go:160-205 | The decoder as it runs: scan, then JSON decoding; it accepts exactly the well-formed paired literals |
| Bundle.OrderIndependent | internal/cli/reconcile_credentials.go:103-149 | The same members in another order are accepted alike and give the same values |
| Bundle.DecodeCredentialBundle | internal/cli/reconcile_credentials.go:106-149 | Accepts exactly one object whose key set lies between required and required plus optional, each key once, and returns the decoded values |
| Format.WalkFlatten | internal/bonusexchange/format.go:137-179 | On the stream of a value the walker stops right behind it if no object repeats a key, and fails otherwise |
| Format.WalkReads | internal/bonusexchange/format.go:137-179 | A successful walk consumed exactly one value, without duplicate keys |
| Format.RejectDuplicateKeys | internal/bonusexchange/format.go:137-179 | The decoder loop succeeds exactly when the walk does and leaves the same rest |
| Format.ReadFlatten | internal/bonusexchange/format.go:115-122 | Reading the token stream of a value gives back the value and what follows it |
| Format.DecodeRecord | internal/bonusexchange/format.go:89-135 | Accepted bytes are the canonical encoding of the returned record, their tokens are those of its JSON form, and every encoding is accepted: the decoder is the encoder's exact inverse |
| Format.SpelledInjective | internal/bonusexchange/format.go:71-87 | Two values never share their canonical bytes |
| Wire.StructFind | internal/bonusexchange/format.go:115-119 | In a written structure every field is found under its key, unless it was empty and optional |
| Wire.StructClean | internal/bonusexchange/format.go:137-163 | A written structure repeats no key and has no unknown one |
| Wire.ReceiptReads | internal/site/bonus_exchange.go:28-97 | A receipt with its limits and counters is read back from its JSON object, optional fields included |
| Wire.ReceiptFields | internal/site/bonus_exchange.go:28-97 | A written receipt has all its fields, but for an empty confirmation code and an empty stop reason |
| Wire.IntentReads | internal/bonusexchange/types.go:125-138 | An intent is read back from its JSON object, which repeats no key at any depth |
| Wire.AttemptReads | internal/bonusexchange/types.go:156-166 | An attempt is read back from its JSON object, which repeats no key |
| Wire.OutcomeReads | internal/bonusexchange/types.go:186-193 | An outcome with its receipt is read back from its JSON object, which repeats no key at any depth |
| Wire.RetentionReads | internal/bonusexchange/types.go:198-210 | A tombstone with the chain it copies is read back from its JSON object, which repeats no key at any depth |
| Wire.ForgetReads | internal/bonusexchange/types.go:228-235 | A forget marker with its tombstone is read back from its JSON object, which repeats no key at any depth |
| Addressing.RecordsExact | internal/bonusexchange/format.go:11-69 | All five record codecs write one JSON value without repeated keys and read it back |
| Addressing.StateWords | internal/bonusexchange/repository.go:793-804 | The word a tombstone writes for its terminal state is the outcome word of the receipt it copies |
| Addressing.SizeIsUtf8 | internal/bonusexchange/types.go:495-505 | The size that limits a text is the number of its bytes in UTF-8 |
| Addressing.DecodeIntent | internal/bonusexchange/format.go:31-37 | Accepts exactly the canonical bytes of a valid intent and returns that intent |
| Addressing.DecodeAttempt | internal/bonusexchange/format.go:39-45 | Accepts exactly the canonical bytes of a valid attempt and returns that attempt |
| Addressing.DecodeOutcome | internal/bonusexchange/format.go:47-53 | Accepts exactly the canonical bytes of a valid outcome and returns that outcome |
| Addressing.DecodeRetention | internal/bonusexchange/format.go:55-61 | Accepts exactly the canonical bytes of a valid tombstone, exact references included, and returns that tombstone |
| Addressing.DecodeForget | internal/bonusexchange/format.go:63-69 | Accepts exactly the canonical bytes of a valid forget marker, exact references included, and returns that marker |
| Addressing.IdInjective | internal/metastore/record.go:232-248 | With a collision-free digest, records with one ID are one record, together with everything they refer to |
| Addressing.ExactRef | internal/bonusexchange/types.go:516-527 | A written reference is the exact reference of a record if and only if it refers to that record |
| Addressing.AttemptValidated | internal/bonusexchange/types.go:168-184 | A written attempt validates and matches its intent exactly when the attempt of the protocol model does |
| Addressing.OutcomeValidated | internal/bonusexchange/types.go:246-265 | A written outcome validates and matches its chain exactly when the outcome of the protocol model does |
| Addressing.RetentionValidated | internal/bonusexchange/types.go:212-226 | A written tombstone of the store validates, its references recomputed from the bytes it copies, exactly when the tombstone of the protocol model does |
| Addressing.ForgetValidated | internal/bonusexchange/types.go:237-244 | A written forget marker of the store validates exactly when the marker of the protocol model does |
| Versions.RenderParse | scripts/release.py:14-19 | A valid version string is determined by its parts |
| Versions.ParseRender | scripts/release.py:14-19 | Every valid version is read back from its string: the release versions are exactly those strings |
| Versions.IdentifierTable | scripts/release.py:14-19 | The characters of a prerelease identifier: the dash, the ten digits, and the letters in both cases |
| Versions.IntOrder | scripts/release.py:32-40 | The numbers of the key order numerals as their length and then their digits do, and tell different numerals apart |
| Versions.KeyInjective | scripts/release.py:32-40 | The sort key determines the version |
| Versions.KeyOrder | scripts/release.py:32-40 | The tuple order of the keys is section 11 precedence, stated on the strings without the key's numbers |
| Versions.KeyTotal | scripts/release.py:32-40 | Any two different release versions are ordered, in one direction only |
| Releases.Plan | scripts/release.py:62-85 | Releases exactly a valid version with notes that is tagged on this commit or, by section 11 precedence, newer than every release tag |
| Releases.Remote.CreateTag | scripts/release.py:185-192 | Creates an absent tag and never touches an existing one |
| Releases.Publish | scripts/release.py:195-244 | Existing tags and releases stay as they are; a failure adds at most the tag and one release, which is unpublished if and only if the failure is not a lost or differing answer to a final call that took effect; success publishes exactly the given assets; it refuses an invalid version, a release with the tag and a tag on another commit, and fails otherwise only if a call fails |
| Releases.FailedYetPublic | scripts/release.py:195-244 | A publication that failed has left a public release behind if and only if its final call took effect and the answer was lost or failed the check of the response |
| Releases.FailedYetPublicHappens | scripts/release.py:239-244 | The two concrete publications, one with the answer lost and one with a differing answer, that fail and leave their release public |
| Releases.ReleaseRun | scripts/release.py:62-85 | One plan-then-publish run leaves the tags alone or adds its version, a valid one newer than every release tag, and adds at most one release; a version that is due is released unless a call fails, and no other is |
| Releases.TagsStay | scripts/release.py:185-192 | No run ever moves or removes a tag |
| Releases.CreatedIncrease | scripts/release.py:62-85 | The tags created by successive plan-then-publish runs strictly increase in section 11 precedence |
| Bencode.EncodeCanon | scripts/readonly_acceptance.py:153-156 | Sorting keys while encoding is encoding the value with sorted dictionaries |
| Bencode.FlatUnique | scripts/readonly_acceptance.py:144-157 | Equal concatenations of an encoding and a suffix come from equal values and equal suffixes |
| Bencode.SameCanon | scripts/readonly_acceptance.py:153-156 | Values are equal, dictionaries by key, exactly when their sorted forms are |
| Bencode.EncodingUnique | scripts/readonly_acceptance.py:144-157 | Two encodings with suffixes are equal exactly when the values are equal up to insertion order and the suffixes are equal |
| Bencode.KeysAscend | scripts/readonly_acceptance.py:153-156 | Dictionaries are written with exactly their keys, each once, in ascending raw byte order |
| Bencode.Examples | scripts/readonly_acceptance.py:144-157 | The examples of BEP 3 are written as BEP 3 has them |

## Left out

- internal/metastore: staging files, fsync and digest streaming; the store is the contract above.
- `Prepare` is one action of the interleaving model; its input checks and receipt are not modelled.
- The store identity of authorities is left out: a session has one store, and its records carry `Records.STORE_ID`.
- A text is a sequence of Unicode scalar values: a string that is not valid UTF-8, which `safeText` refuses, cannot be written down (internal/bonusexchange/types.go:495-505).
- The canonical form of an origin and the order of the two observation times of a receipt are not checked; times are their canonical text.
- Refinement.SessionIsRun: it is about journals. Dafny does not keep other code from assigning the ghost journal of a bound store, and `Valid` refuses one that is not legal but not a legal one that nobody performed; only the primitives of `Metastore`, and the session methods through them, extend it.
- Contexts and timeouts: cancellation is a step that may fail, a crash is a session that ends.
- Driver.Submit: flags, credential input and report fields are left out; they are failures before the reservation.
- Releases.Publish: local asset verification, repository names and response details are one check each; other writers of the remote are not modelled.
- Literals.DecodeStrictCredentialString: the JSON string decoder is modelled on literals only, by its grammar and its replacement rule.
- Format.DecodeRecord: how tokens are spelled in bytes is a parameter with a stated law; escapes and number formats below the token level are not modelled.
- Wire.IntentReads: keys are matched exactly, although the JSON library also matches them in another case; the comparison with the canonical bytes refuses those anyway.
- Addressing.RetentionValidated: that a digest has the format of an ID is a hypothesis about the records referred to, since no collision-free digest has a fixed length.
- Bencode.EncodingUnique: text and booleans are left out: a text and its bytes have one encoding, and a boolean is written as the word True or False between the integer brackets, which is not BEP 3.
- Liveness: a marker can be published and never acquired, so the guarantee is at most once.
- What a stale call leaves behind is not bounded: a stale prune can republish a tombstone after a forget, a stale reservation can leave a stray marker, and a repeated store-outcome can republish an outcome after a prune; `Theorems.StaleNeverSucceeds` says that none of them succeeds.
- Report writers, help texts, stop reasons and terminal handling: presentation only.
- internal/cli/reconcile.go, materialize.go, client_*.go, scripts/package.py and the rest of scripts/readonly_acceptance.py: other features.
