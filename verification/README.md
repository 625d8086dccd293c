# Verification model of the GOLF GUFF governance layer

A Dafny model of the write-ahead journals and the state machines behind them, with proofs of the laws they exist for.
`dafny verify dfyconfig.toml` checks everything.

Each store is modelled twice. A value-level ledger gives, for every operation, a verdict (refuse with a status, or accept
an event), the effect of an event on the maps, and the journal line it prints; replay reads lines back. The laws are
proved of this level, over every run of calls and every pattern of failing appends. A class with the source's own fields
then performs exactly one such step per method, loops included.

## What is proved

* **Authority stack.** `AuthorityReceipt`, `CanonicalLines`, `AuthorityBook`, `AuthorityLedger`, `AuthorityForest`,
  `AuthorityInvariants`, `AuthorityTheorems`, `AuthorityFinality`, `AuthorityReplay` and `AuthorityLedgerObject` cover receipts and the ledger;
  `AuthorityGate` the gate and the delegator; `SessionKey`, `SessionReplay` and `SessionKeyLedgerObject` session keys; `RuntimeLease`,
  `RuntimeLeaseReplay` and `RuntimeLeaseLedgerObject` leases. `SpendingGates`, `SpendingConservation` and
  `SpendingGateObjects` put the three ledgers together: nothing spends more than the root signed.
* **Transactions.** `SessionJournal` and its `Text`, `Laws`, `Runs`, `Theorems` and `Object` companions; `RecoveryProtocol`;
  `ExecutionSession`, `SessionStory` and `ExecutionOrchestrator`; the attempt loop `Zenkai` and the output sink `Forge`.
* **Policies.** `PolicyEngine`; `PolicyRegistry` and its `Text`, `Laws`, `Theorems`, `Query` and `Object` companions.
* **SHA-256.** `Sha256` states FIPS 180-4 and checks its constants against their definition; `Sha256Object` is the streaming
  implementation, in place over arrays. The word operations are a parameter of the in-place proof, with the standard's as
  the instance, so that the proof depends on how words are combined and on one law of addition only.
* **Index and printer cores.** `RuntimeIdentity` with `Laws`, `Replay` and `Object`; `WindowsQuoting`; `Scorecard`.
* **Gaps.** `ReplayGaps`, `NonceGap` and `RecoveryGaps` run the stores into the cases listed below.
* `Text`, `HashChain`, `Ordering`, `Readings` and `Wrappers` are shared.

Hashes are functions from texts to 64 hexadecimal characters. A receipt's identity covers its signed form: capabilities
sorted, and the fields its schema leaves out of the canonical text blank. Theorems that need an identity to tell receipts
apart take a book that files each genuine receipt under its identity, so a receipt may be presented in any spelling, and
`AuthorityTheorems.SpellingsJudgedAlike` shows the ledger does not tell spellings apart either. A book files either the
signed forms or only the terms: all of the signed form but who acts, who signs with which key, and when in words. Terms are
all that conservation, attenuation and the ancestor walk need; only what concerns keys takes signed forms.

A book of either kind exists for any receipts that do not collide in it (`AuthorityTheorems.BookExists`). So any run over a
hash that keeps the run's own texts apart has a book of terms, and conservation holds of it with no other premise
(`AuthorityTheorems.ConservationUnderHash`, `SpendingConservation.SpendingUnderHash`); it has a book of signed forms as long
as no actor reference and no issue time holds a line break (`AuthorityTheorems.BookExistsForHash`,
`SpendingConservation.BookForMoves`). That condition is needed: the validator admits line breaks there, and
`AuthorityBook.LineBreakBlursSigner` gives two receipts with one canonical text and two signers.
Signers and verifiers are functions of their arguments; the clock, the outcome of each append, and the callbacks of a
session are inputs.

## Where the code does not do what one would expect

Each of these has its exact condition, where there is one, and an accepted run that meets it.

* A lease use at clock time zero is accepted and journaled, and replay then rejects the journal: exactly then
  (`RuntimeLeaseReplay.LeaseReplayIsExact`), after any run (`ReplayGaps.ZeroTimeLeaseUse`), and it happens
  (`ReplayGaps.ZeroTimeLeaseUseHappens`). The session-key ledger has the same gap for four values
  (`SessionReplay.SessionReplayIsExact`): three of a registration (`ReplayGaps.RegistrationGap`) and the time of a use
  (`ReplayGaps.ZeroTimeSessionUse`, `ReplayGaps.ZeroTimeSessionUseHappens`). The lease ledger's clock can be injected; the
  session-key ledger reads the system clock, so that a session use at time zero needs the system clock at the epoch.
* A policy signature of 8193 to 27658 bytes is registered, reported Ready, and makes the registry unreadable
  (`PolicyRegistryTheorems.OversizedIsReadyAndDamages`, `PolicyRegistryTheorems.OversizedHappens`). From 32760 bytes on the
  line ceiling refuses it; in between that depends on the length of the other fields
  (`PolicyRegistryTheorems.OperationIsExact`).
* A child registered under its parent's own unbound nonce takes the nonce over: the parent can never be used again
  (`AuthorityFinality.SharedNonceStrandsParent`), with budget left (`NonceGap.SharedNonceHappens`).
* A recovery whose child correlation is taken spends an authority use and records nothing
  (`RecoveryProtocol.RecordingSucceedsExactly`, `RecoveryGaps.TakenChildBurnsUse`, `RecoveryGaps.TakenChildHappens`).
* A retry template with 27 or 28 tags is valid, but its prepared child is not, since two tags are added: the parent is
  closed and the authority spent for a child that cannot run (`RecoveryProtocol.PreparedChildIsValid`,
  `RecoveryGaps.CrowdedChildCannotRun`, `RecoveryGaps.CrowdedTemplateHappens`).
* Once a recovery child has started, its correlation is free again (`SessionJournalTheorems.ReservationEndsWithTheChild`).
* Gates called without a capability, as recovery and destructive execution do, are closed to delegable receipts
  (`AuthorityGate.UnnamedCapabilityExcludesDelegable`).
* The identity store checks for duplicates before it checks revocations, so a re-sent attestation of a revoked device is
  Ok (`RuntimeIdentityLaws.ResentAfterRevocation`, `RuntimeIdentityLaws.ResentHappens`).

Two further results are exact without being such cases. Every list of arguments survives the command line if and only if
the program name holds no quote (`WindowsQuoting.ArgumentsSurviveExactly`), and the source requires the program to be an
existing file. Replay rebuilds the identity store if and only if no record identity stood for two contents
(`RuntimeIdentityReplay.IdentityReplayIsExact`), which takes two texts of one digest
(`RuntimeIdentityReplay.ApartMeansNoCollision`).

## Model

| member | source | states |
|---|---|---|
| AuthorityReceipt.IssuedVerifies | src/authority_receipt.cpp:168-249 | A receipt issued by a signer the verifier trusts verifies for its own purpose and subject, and for no other |
| AuthorityReceipt.ScopeIsPartialOrder | src/authority_receipt.cpp:102-110 | Scope containment is reflexive, transitive and antisymmetric on non-empty paths |
| AuthorityReceipt.CapabilitiesTransitive | src/authority_receipt.cpp:112-120 | Capability containment composes along a chain |
| AuthorityInvariants.RunKeepsInv | src/authority_ledger.cpp:331-610 | Every ledger reachable by any run of calls, with appends failing anywhere, keeps lineage edges narrowing, budgets exact and, told by signed forms, parents anchored in a held key |
| AuthorityInvariants.DelegationFacts | src/authority_ledger.cpp:355-482 | What an accepted registration establishes: a genuine narrower child one level deeper, a registered parent line, and room for one use plus the whole child budget |
| AuthorityTheorems.ForestConservation | src/authority_ledger.cpp:445-606 | In every reachable ledger the uses of any set of receipts at or below a root add up to at most the root's signed max_uses |
| AuthorityTheorems.ConservationUnderHash | src/authority_ledger.cpp:445-606 | The same with no premise but that the hash keeps the texts of the run's own receipts apart: uses of any genuine receipt presented and of any receipts below it fit its signed max_uses |
| AuthorityTheorems.ReservationsAreExact | src/authority_ledger.cpp:445-482 | Reserved uses equal the sum of the registered children's budgets, and uses plus reservations fit the receipt |
| AuthorityTheorems.ReachableChainsAttenuate | src/authority_ledger.cpp:373-428 | For every registered ancestor at any distance k: scope, capabilities and lifetime nested, max_uses at least k larger, depth at most 8, no cycle |
| AuthorityTheorems.WalkIsExact | src/authority_ledger.cpp:182-198 | The nine-step ancestor loop answers exactly whether some proper ancestor is revoked by now; its overflow answer is never the reason |
| AuthorityTheorems.WalkIsExactWithin | src/authority_ledger.cpp:182-198 | A bounded walk longer than the depth of its start decides the unbounded question |
| AuthorityTheorems.AllowedChainIsLive | src/authority_ledger.cpp:526-567 | If a receipt is allowed at now then every receipt above it is unexpired and unrevoked and, told by signed forms, issued inside its key's present window, though only the leaf is tested |
| AuthorityTheorems.BookExists | src/authority_receipt.cpp:122-166 | The filing premise of the theorems holds, for signed forms or for terms, of every run whose genuine receipts do not share an identity while differing in them |
| AuthorityTheorems.BookExistsForHash | src/authority_receipt.cpp:122-166 | Over a hash that keeps the canonical and identity texts of the receipts presented apart, it holds of every run for terms, and for signed forms if no actor reference and no issue time holds a line break |
| AuthorityTheorems.SpellingsJudgedAlike | src/authority_receipt.cpp:122-152 | Receipts with one signed form, capabilities reordered or unsigned fields changed, get the same verdict on every use |
| AuthorityTheorems.DelegationJudgedByForm | src/authority_receipt.cpp:122-152 | A delegation gets the verdict its signed forms get |
| AuthorityBook.SignedTextIsCanonical | src/authority_receipt.cpp:122-152 | The canonical text of an envelope is that of its signed form: capabilities sorted, fields outside the schema blank |
| CanonicalLines.CanonicalShows | src/authority_receipt.cpp:122-152 | Whatever line breaks actor reference and issue time hold, valid envelopes have the same canonical text exactly when the lines before and behind the attribution and the attribution's joined text are the same |
| AuthorityBook.CanonicalDeterminesTerms | src/authority_receipt.cpp:122-152 | They have the same canonical text exactly when they have the same terms, budget, times, scope, capabilities, parent and depth included, and the same joined attribution |
| AuthorityBook.CanonicalDeterminesForm | src/authority_receipt.cpp:122-152 | Valid envelopes without line breaks in actor reference and issue time have the same canonical text exactly when they have the same signed form |
| AuthorityBook.LineBreakBlursSigner | src/authority_receipt.cpp:122-152 | With a line break in the actor reference a valid envelope has the canonical text of another valid envelope with another signer, whatever the hash |
| AuthorityBook.VerifiedInForm | src/authority_receipt.cpp:199-249 | Verification of a receipt gives what verification of its signed form gives |
| AuthorityBook.ApartDoNotCollide | src/authority_receipt.cpp:154-166 | Receipts whose texts the hash keeps apart never share an identity under different terms, nor, without such line breaks, under different signed forms |
| AuthorityForest.UsesBelow | src/authority_ledger.cpp:445-482 | In any layered forest whose nodes reserve their children's budgets, uses below a root fit the root |
| AuthorityFinality.RunKeeps | src/authority_ledger.cpp:200-329 | Along every run nonce bindings, receipt and key revocations never change, and key windows only shrink |
| AuthorityFinality.OneReceiptPerNonce | src/authority_ledger.cpp:430-606 | A committed call that presents anything under a nonce leaves the nonce to one receipt it presents, passing over only a parent that shares its child's nonce; whatever a later committed use or registration presents under it, as receipt, parent or child, is that receipt |
| AuthorityFinality.NonceAfterDelegation | src/authority_ledger.cpp:445-482 | Registration leaves the parent's nonce bound to the parent exactly when the child brings another nonce |
| AuthorityFinality.SharedNonceStrandsParent | src/authority_ledger.cpp:445-482 | A child registered under its parent's own unbound nonce closes the parent to every later use and delegation |
| NonceGap.SharedNonceIsAccepted | src/authority_ledger.cpp:331-483 | Under every hash a fresh ledger that trusts the key accepts a registration whose child repeats its parent's nonce |
| NonceGap.SharedNonceHappens | src/authority_ledger.cpp:445-482 | Under every hash that tells the two receipts' identities apart, and such hashes exist, the parent then has budget left and is refused every use and every further delegation |
| AuthorityFinality.RevokedReceiptStaysRefused | src/authority_ledger.cpp:303-329 | A receipt revoked at some point of a run is refused from then on at every time from its revocation |
| AuthorityFinality.RevokedKeyStaysRefused | src/authority_ledger.cpp:272-301 | So is every receipt of a revoked key |
| AuthorityReplay.ReplayRebuildsLedger | src/authority_ledger.cpp:612-781 | After any run from an empty journal, replay accepts every line and rebuilds the same maps, sequence and head |
| AuthorityReplay.ParsePrint | src/authority_ledger.cpp:612-781 | Every event is read back from its fields as it was printed, and no field holds a separator |
| AuthorityReplay.AcceptedIsAdmitted | src/authority_ledger.cpp:200-610 | Every event a live call accepts meets the contract replay checks |
| AuthorityReplay.CommitKeepsFaithful | src/authority_ledger.cpp:129-172 | One more committed line keeps the replayed and the live ledger equal |
| HashChain.ReadWritten | src/authority_ledger.cpp:129-172 | A line written after a record is accepted as its successor with its event fields intact |
| HashChain.WrittenIsOneLine | src/authority_ledger.cpp:129-172 | With clean fields the written line has no line break |
| HashChain.TabWidensBody | src/authority_ledger.cpp:612-660 | A tab inside a field makes the line carry more fields than were written |
| Text.HexRoundTrip | src/authority_ledger.cpp:19-48 | Hexadecimal decoding returns the encoded bytes |
| Text.ParseDec | src/authority_ledger.cpp:65-75 | A printed number parses back exactly when it fits the destination |
| Text.SplitJoin | src/authority_ledger.cpp:50-63 | Splitting joined fields at tabs gives the fields back when none holds a tab |
| Text.SplitTabsLoop | src/authority_ledger.cpp:50-63 | The field-splitting loop computes the recursive splitting |
| Text.HexDecodeLoop | src/authority_ledger.cpp:37-48 | The decoding loop computes the recursive decoding, refusals included |
| AuthorityLedgerObject.AuthorityLedgerFile.constructor | src/authority_ledger.cpp:111-123 | Opening a ledger rebuilds its memory by replay of the journal |
| AuthorityLedgerObject.AuthorityLedgerFile.AppendEvent | src/authority_ledger.cpp:129-172 | A successful append adds exactly the chained line and advances sequence and head; a failed one changes nothing |
| AuthorityLedgerObject.AuthorityLedgerFile.Record | src/authority_ledger.cpp:129-172 | Journal first, then the maps: all of the event or nothing |
| AuthorityLedgerObject.AuthorityLedgerFile.AncestorIsRevoked | src/authority_ledger.cpp:182-198 | The loop over parents equals the bounded recursive walk |
| AuthorityLedgerObject.AuthorityLedgerFile.TrustKey | src/authority_ledger.cpp:200-237 | Performs one TrustKey step of the value-level ledger |
| AuthorityLedgerObject.AuthorityLedgerFile.RetireKey | src/authority_ledger.cpp:239-270 | Performs one RetireKey step |
| AuthorityLedgerObject.AuthorityLedgerFile.RevokeKey | src/authority_ledger.cpp:272-301 | Performs one RevokeKey step |
| AuthorityLedgerObject.AuthorityLedgerFile.RevokeReceipt | src/authority_ledger.cpp:303-329 | Performs one RevokeReceipt step |
| AuthorityLedgerObject.AuthorityLedgerFile.RegisterDelegation | src/authority_ledger.cpp:331-483 | Performs one RegisterDelegation step, of which conservation, attenuation and replay are proved |
| AuthorityLedgerObject.AuthorityLedgerFile.AuthorizeAndConsume | src/authority_ledger.cpp:485-610 | Performs one Authorize step |
| AuthorityLedgerObject.AuthorityLedgerFile.ReplayJournal | src/authority_ledger.cpp:612-781 | The replay loop rebuilds what the recursive replay defines, stopping at the first bad line |
| AuthorityGate.GateOpensExactly | src/authority_gate.cpp:19-70 | The gate allows exactly when the receipt fits scope and capability and the ledger commits one more use; otherwise the ledger is unchanged |
| AuthorityGate.UnnamedCapabilityExcludesDelegable | src/authority_gate.cpp:30-60 | A caller that names no capability never spends a schema v3 receipt |
| AuthorityGate.RequestMeetsContract | src/authority_delegation.cpp:30-145 | A child minted by the delegator and signed by a trusted signer always meets the ledger's attenuation contract |
| SessionReplay.SessionReplayIsExact | src/session_key.cpp:668-802 | Replay rebuilds the live ledger if and only if every committed registration had a digest fingerprint, non-zero expiry and budget, and every committed use a non-zero time; otherwise it reports damage |
| SessionReplay.AdmittedExactly | src/session_key.cpp:700-790 | An accepted call meets the replay contract exactly under that condition |
| ReplayGaps.RegistrationGap | src/session_key.cpp:389-454 | Whatever fingerprint, expiry and budget a coherent bundle carries it is registered; replay accepts the journal exactly when the fingerprint is a digest and neither number is zero |
| ReplayGaps.ZeroTimeSessionUse | src/session_key.cpp:564-598 | After any run, one accepted session use at time zero makes replay reject the journal |
| ReplayGaps.ZeroTimeSessionUseHappens | src/session_key.cpp:564-598 | Such a use is accepted after registering a concrete bundle |
| SessionReplay.ParsePrintSession | src/session_key.cpp:668-802 | Every session event is read back as printed, a handoff whose fingerprint holds a tab excepted: its line is covered by CommittedLineReads |
| SessionReplay.CommittedLineReads | src/session_key.cpp:668-802 | The line of any accepted call is read back as its event exactly when the call meets the replay contract, and otherwise not read at all, a fingerprint with tabs included |
| SessionKeyLedgerObject.SessionKeyLedgerFile.constructor | src/session_key.cpp:337-345 | Opening rebuilds memory by replay |
| SessionKeyLedgerObject.SessionKeyLedgerFile.KeyIsTaken | src/session_key.cpp:405-432 | The scan over registrations decides whether a signer and key are already bound |
| SessionKeyLedgerObject.SessionKeyLedgerFile.RegisterBundle | src/session_key.cpp:389-454 | Performs one register step |
| SessionKeyLedgerObject.SessionKeyLedgerFile.Consume | src/session_key.cpp:564-598 | Performs one consume step |
| SessionKeyLedgerObject.SessionKeyLedgerFile.RevokeKey | src/session_key.cpp:600-637 | Performs one key revocation step |
| SessionKeyLedgerObject.SessionKeyLedgerFile.RevokeReceipt | src/session_key.cpp:639-666 | Performs one receipt revocation step |
| SessionKeyLedgerObject.SessionKeyLedgerFile.ReplayJournal | src/session_key.cpp:668-802 | The replay loop rebuilds what the recursive replay defines |
| SpendingGates.IssuedBundleIsUsable | src/session_key.cpp:839-990 | A bundle that issue returns passes preflight for its voucher's operation except for capability, clock, revocation or a spent budget |
| SpendingGates.VerifiedBundleChecks | src/session_key.cpp:456-562 | A verified, registered bundle passes every check of its voucher's own operation that needs no clock |
| RuntimeLease.IssuedLeaseValidates | src/runtime_lease.cpp:251-318 | Issuing and validating impose the same bounds: an issued lease validates exactly when its key is known, fingerprinted and its signature verifies |
| RuntimeLeaseReplay.LeaseReplayIsExact | src/runtime_lease.cpp:613-726 | Replay rebuilds the live lease ledger if and only if no committed use was made at clock time zero; otherwise it reports damage |
| RuntimeLeaseReplay.AcceptedLeaseIsAdmitted | src/runtime_lease.cpp:690-706 | An accepted call meets the replay contract exactly when it is not a use at time zero |
| ReplayGaps.ZeroTimeLeaseUse | src/runtime_lease.cpp:529-577 | After any run, one accepted lease use at time zero makes replay reject the journal |
| ReplayGaps.ZeroTimeLeaseUseHappens | src/runtime_lease.cpp:529-577 | Such a use is accepted after registering a lease issued by the issuer's own rules |
| RuntimeLeaseReplay.ParsePrintLease | src/runtime_lease.cpp:613-726 | Every lease event is read back as printed |
| RuntimeLeaseLedgerObject.RuntimeLeaseLedgerFile.constructor | src/runtime_lease.cpp:320-325 | Opening rebuilds memory by replay |
| RuntimeLeaseLedgerObject.RuntimeLeaseLedgerFile.RegisterLease | src/runtime_lease.cpp:377-431 | Performs one register step |
| RuntimeLeaseLedgerObject.RuntimeLeaseLedgerFile.Consume | src/runtime_lease.cpp:529-577 | Performs one consume step |
| RuntimeLeaseLedgerObject.RuntimeLeaseLedgerFile.RevokeLease | src/runtime_lease.cpp:579-611 | Performs one revoke step |
| RuntimeLeaseLedgerObject.RuntimeLeaseLedgerFile.ReplayJournal | src/runtime_lease.cpp:613-726 | The replay loop rebuilds what the recursive replay defines |
| SpendingConservation.ThreeLedgerConservation | src/runtime_lease.cpp:764-795 | No interleaving of administration, delegation, handoff, session use and lease use, with appends failing anywhere, overspends: lease uses per session receipt within its uses, session uses per voucher within its uses, and all leases under a root within the root's signed budget |
| SpendingConservation.SpendingUnderHash | src/runtime_lease.cpp:764-795 | With no premise but that hash, all lease uses and all session uses under a genuine receipt shown to the authority ledger fit its signed max_uses |
| SpendingConservation.GrantedLeaseIsSanctioned | src/runtime_lease.cpp:764-795 | A granted lease use is permitted in scope, capability and time by every receipt above its voucher, each unexpired and unrevoked at that moment and, told by signed forms, inside its key's window |
| SpendingConservation.BookForMoves | src/authority_receipt.cpp:122-166 | The filing premise of the three-ledger theorems holds of every run over a hash that keeps the texts of its receipts apart: for terms always, for signed forms without such line breaks |
| SpendingConservation.RunKeepsTiers | src/session_key.cpp:1002-1039 | Every run through the gates keeps each tier backed by the uses of the tier above |
| SpendingConservation.LeaseGateKeepsBacking | src/runtime_lease.cpp:764-795 | One lease authorization, wherever it stops, keeps both tiers backed |
| SpendingConservation.SessionGateKeepsInv | src/session_key.cpp:1002-1039 | One session authorization, wherever it stops, keeps the authority ledger's invariant |
| SpendingConservation.HandoffDoes | src/session_key.cpp:839-990 | A handoff changes the authority ledger by at most the one delegation it requests, registers at most one bundle, and spends no session or lease use |
| SpendingConservation.BackedSum | src/runtime_lease.cpp:764-795 | Backing per owner lifts to any set of owners |
| SpendingGateObjects.LedgerGates.AuthorizeVoucher | src/authority_gate.cpp:19-70 | The gate over the ledger object performs exactly the value-level gate |
| SpendingGateObjects.LedgerGates.AuthorizeSession | src/session_key.cpp:1002-1039 | The session gate over two ledger objects performs exactly the value-level gate, in its order of effects |
| SpendingGateObjects.LedgerGates.AuthorizeLease | src/runtime_lease.cpp:764-795 | The lease gate over three ledger objects performs exactly the value-level gate |
| SessionJournalLaws.ScanDecidesLawfulness | src/session_journal.cpp:313-433 | For every text: the scan is healthy exactly when every line is a valid record and the history lawful, and then seen, used, reserved and open are what the history says |
| SessionJournalLaws.ScanStep | src/session_journal.cpp:330-425 | One record is accepted exactly when it may follow the history |
| SessionJournalLaws.LawfulSessions | src/session_journal.cpp:345-423 | In a lawful history each session begins once and closes at most once, later, under the same correlation and request |
| SessionJournalTheorems.JournalLifecycle | src/session_journal.cpp:484-677 | After any run with any appends failing, the text reads back as the records written, the scan is sound, and open is exactly begun minus closed |
| SessionJournalTheorems.RecoveryLineagesAreForwardPaths | src/session_journal.cpp:352-423 | Lineages share no parent, child correlation or child session; a child's BEGIN comes after its parent's retry record, first under that correlation, and only through begin_recovery_child with exactly that parent and authorization |
| SessionJournalTheorems.ReservationEndsWithTheChild | src/session_journal.cpp:503-520 | An ordinary begin under a reserved correlation is refused exactly while its child has not started |
| SessionJournalTheorems.SoundIsRunning | src/session_journal.cpp:313-433 | A journal the scan finds sound can be run on: its records have digests and its open records are valid |
| SessionJournalRuns.AppendIsPredicted | src/session_journal.cpp:435-473 | On a sound journal an operation writes exactly when it decides to and the disk accepts; the rescanned state is the one its record predicts |
| SessionJournalRuns.RunTracksLineage | src/session_journal.cpp:503-565 | Every run keeps lineages apart and traced to the records that made them |
| SessionJournalText.RecordRoundTrip | src/session_journal.cpp:185-296 | Every valid record is read back from its line exactly |
| SessionJournalText.ReadRecordsAreValid | src/session_journal.cpp:203-296 | Whatever line is read yields a valid record, and that line denotes it |
| SessionJournalText.SerializedIsOneLine | src/session_journal.cpp:185-201 | A printed record is one line |
| SessionJournalText.ValidRecordFits | src/session_journal.cpp:435-473 | The line budget never refuses a valid record |
| SessionJournalObject.ScanAll | src/session_journal.cpp:313-433 | The mutating scan computes the recursive scan |
| SessionJournalObject.JournalScan.ReadRecord | src/session_journal.cpp:330-425 | One record updates the scan state as the fold does |
| SessionJournalObject.JournalScan.StartChild | src/session_journal.cpp:360-378 | Starts the first waiting lineage under the correlation, if there is one |
| SessionJournalObject.SessionJournalFile.Begin | src/session_journal.cpp:484-524 | Appends and reports exactly what the value-level begin does |
| SessionJournalObject.SessionJournalFile.BeginRecoveryChild | src/session_journal.cpp:526-576 | The same for a recovery child |
| SessionJournalObject.SessionJournalFile.Finish | src/session_journal.cpp:578-617 | The same for COMMIT and ABORT |
| SessionJournalObject.SessionJournalFile.Recover | src/session_journal.cpp:619-677 | The same for recovery records |
| RecoveryProtocol.DecisionIsExact | src/recovery_protocol.cpp:85-178 | A decision is made exactly when the parent is interrupted under the named BEGIN, the gate spends one use, the record is stored, and a retry's correlation is fresh; the journal changes only then |
| RecoveryProtocol.RecordingSucceedsExactly | src/recovery_protocol.cpp:126-160 | Once the gate has allowed, success is exactly storing the record with a fresh child correlation; failing that the use stays spent and the journal unchanged |
| RecoveryGaps.TakenChildBurnsUse | src/recovery_protocol.cpp:126-160 | Whenever the gate opens for a retry onto a used or reserved correlation, a use is spent, nothing is decided and the journal is unchanged |
| RecoveryGaps.TakenChildHappens | src/recovery_protocol.cpp:126-160 | So it goes, under every hash, with two interrupted sessions and a retry of one under the correlation of the other |
| RecoveryProtocol.DelegableReceiptsDecideNothing | src/recovery_protocol.cpp:126-140 | A schema v3 receipt never decides a recovery and is never spent on one |
| RecoveryProtocol.PreparedChildMayBegin | src/recovery_protocol.cpp:141-177 | After a retry, begin_recovery_child accepts the prepared request for any fresh session id |
| RecoveryProtocol.PreparedChildIsValid | src/recovery_protocol.cpp:160-177 | The prepared child passes request validation exactly when the template's other fields do and it has at most 26 tags |
| RecoveryGaps.CrowdedTemplateHappens | src/recovery_protocol.cpp:160-177 | Under every hash a valid template of 27 or 28 tags is prepared for a retry, and the prepared child fails request validation |
| ExecutionSession.SessionId | src/execution_session.cpp:13-30 | A session id has the canonical prefixed form the journal demands |
| ExecutionSession.RequestSha256 | src/execution_session.cpp:32-65 | A request hash is a digest |
| ExecutionSession.PlansStayInContract | src/execution_session.cpp:360-398 | Whatever a retry planner proposes, only requests keeping the session's correlation, slot, capability and layer are executed |
| ExecutionSession.SkippedAttemptFails | src/execution_session.cpp:363-398 | An attempt that executes nothing does not pass verification |
| ExecutionOrchestrator.BeginOpens | src/execution_session.cpp:296-326 | Storing BEGIN opens the session, or leaves the journal as it was |
| ExecutionOrchestrator.FinishCloses | src/execution_session.cpp:238-268 | The terminal record goes in exactly when it is well formed, matches the open session, and the disk accepts it |
| ExecutionOrchestrator.StoreBegin | src/execution_session.cpp:303-308 | Stores BEGIN exactly when the journal's begin, or begin_recovery_child for a recovery child, succeeds, and then this session is open; otherwise the journal is as it was |
| ExecutionOrchestrator.StoreTerminal | src/execution_session.cpp:238-268 | COMMIT exactly for completed results |
| ExecutionOrchestrator.SessionRun.RunJournaled | src/execution_session.cpp:225-503 | BEGIN goes in exactly when the request is valid and the journal takes it; the result then is exactly what route, slot, loop, collector and episode decide, overruled exactly when the terminal record is refused; the executor calls are exactly the planned ones; the events are the whole log of the run cut to its budget; COMMIT exactly when Completed, ABORT otherwise, interrupted after a journal failure; the audit hash is the digest of the returned result |
| ExecutionOrchestrator.SessionRun.RunUnjournaled | src/execution_session.cpp:225-503 | The same without a journal, where a recovery child is refused |
| SessionStory.Setting.SettledInOrder | src/execution_session.cpp:225-503 | A run that began makes only calls within its contract, and completes only after a call and a verified loop |
| SessionStory.Setting.ReachedCalls | src/execution_session.cpp:350-503 | The same of everything between BEGIN and the terminal record |
| ExecutionOrchestrator.SessionRun.HandToExecutor | src/execution_session.cpp:401-405 | The only call of the executor: session open, request in contract |
| ExecutionOrchestrator.SessionRun.Loop | src/execution_session.cpp:352-425 | The bounded attempt loop drives the executor: each attempt is planned, handed over, reported and weighed in turn, before the next is planned; calls, events and the last execution are exactly those of the attempts made |
| ExecutionOrchestrator.SessionRun.MakeAttempt | src/execution_session.cpp:355-425 | One attempt calls the executor exactly when the plan stays in contract, logs exactly its event, and reports what the loop weighs |
| ExecutionOrchestrator.SessionRun.Start | src/execution_session.cpp:273-326 | Validation and BEGIN: either open, or aborted with the journal untouched and no call made |
| SessionStory.Setting.PlannedInContract | src/execution_session.cpp:360-398 | Everything handed to the executor keeps the session's contract |
| ExecutionSession.PromotionIsKept | src/execution_session.cpp:433-450 | Later candidates never displace promoted ones |
| ExecutionSession.ShelfWithinBudgets | src/execution_session.cpp:433-450 | The promoted artifacts stay within both budgets: the byte count kept is their bytes cut at 2^64-1, so any smaller byte budget bounds the bytes themselves |
| ExecutionOrchestrator.SessionRun.PromoteArtifacts | src/execution_session.cpp:433-450 | Each candidate in turn is promoted or counted as rejected, and logged as such |
| SessionStory.ShelfIsPromoted | src/execution_session.cpp:433-450 | What is kept is what the budgets promote, first come first served, and every other candidate is counted |
| ExecutionOrchestrator.SessionRun.Close | src/execution_session.cpp:238-268 | Freezes the audit, then COMMIT or ABORT; a refused terminal turns the result into a journal failure |
| ExecutionOrchestrator.EventLog.Add | src/execution_session.cpp:96-108 | The event list is always the first events of the log that fit the budget, numbered and with details cut; a dropped one is flagged |
| Zenkai.RunLoop | src/zenkai.cpp:41-122 | All budgets hold; no retry without authority; every attempt but the last continued; the stop reason is the one the last attempt, the missing authority or the item over budget justifies; counters are the exact cost of the evidence; the trace is the whole story of the run, stage, attempt and detail, cut to its budget |
| Zenkai.ZenkaiLoop.Take | src/zenkai.cpp:54-117 | One weighed attempt either lets the run go on with all counters and the trace exact, or ends it as described |
| Zenkai.ZenkaiLoop.Halt | src/zenkai.cpp:47-52 | Ending before another attempt is justified by missing authority or by the attempt budget |
| Zenkai.VerifiedPassed | src/zenkai.cpp:96-106 | A verified run's last attempt passed, was not fatal, and met the threshold |
| Zenkai.ZenkaiLoop.CountEvidence | src/zenkai.cpp:62-90 | Counts and traces all evidence, or all before the item that would exceed a budget, and names that budget |
| Zenkai.ZenkaiLoop.AppendTrace | src/zenkai.cpp:17-27 | The trace is always the first entries of the log that fit its budget, and flags what is dropped |
| Forge.ForgeOutputSink.Write | src/forge.cpp:46-62 | The captured text is always the written text cut at the budget; observed bytes and truncation are exact |
| Forge.Execute | src/forge.cpp:75-166 | Runs only the named payload in a resolved slot; completed exactly when it finished cleanly, in time and within the output budget, and then all output was captured |
| PolicyRegistryTheorems.ScanDecidesLawfulness | src/policy_registry.cpp:316-456 | For every text: the scan is healthy exactly when it fits the ceiling, every line is a valid record, and the history is a lawful compare-and-swap sequence; then every part of the scanned state is what the history says |
| PolicyRegistryLaws.ScanStep | src/policy_registry.cpp:336-450 | One record is accepted exactly when it may follow |
| PolicyRegistryTheorems.ControlsAreSpentOnce | src/policy_registry.cpp:382-398 | No control id and no (signer, nonce) is accepted twice, and each control expected exactly the policy then active |
| PolicyRegistryTheorems.ActivePolicyIsSound | src/policy_registry.cpp:400-446 | The active policy is empty, or registered under the reported package, unrevoked and activated before; the generation counts its changes |
| PolicyRegistryTheorems.NonceKeyIsInjective | src/policy_registry.cpp:393-398 | Printable signers keep nonce keys apart |
| PolicyRegistryTheorems.OperationIsExact | src/policy_registry.cpp:458-497 | An operation on a healthy registry is Ready exactly when its checks pass, its line is within 65536 bytes and the disk accepts it, and otherwise leaves the text; the registry it leaves is healthy with the reported active policy if and only if the signature is at most 8192 bytes; up to 27658 bytes the line surely fits, from 32760 it never does |
| PolicyRegistryTheorems.OversizedIsReadyAndDamages | src/policy_registry.cpp:458-497 | Whenever the checks pass with a signature of 8193 to 27658 bytes, the operation reports Ready and the registry becomes unreadable |
| PolicyRegistryTheorems.OversizedHappens | src/policy_registry.cpp:685-736 | It does with a concrete document and package signed in 8193 bytes, under every hash |
| PolicyRegistryText.RecordRoundTrip | src/policy_registry.cpp:179-314 | Every valid record is read back from its line exactly |
| PolicyRegistryText.ReadRecordsAreValid | src/policy_registry.cpp:202-314 | Whatever line is read yields a valid record, and that line denotes it |
| PolicyRegistryText.OversizedIsUnreadable | src/policy_registry.cpp:245-256 | A record whose signature is over the reader's ceiling cannot be read back |
| PolicyRegistryText.ValidRecordFits | src/policy_registry.cpp:458-497 | The line budget never refuses a valid record |
| PolicyRegistryText.LineLength | src/policy_registry.cpp:179-200 | A printed record is between 17 and 10219 bytes longer than its signature in hexadecimal |
| PolicyRegistryQuery.LookupAgrees | src/policy_registry_query.cpp:59-104 | Lookup from the text gives exactly the package the full scan stores |
| PolicyRegistryQuery.ActivePackageAgrees | src/policy_registry_query.cpp:106-112 | Whenever a policy is active its package is found, and it is the stored one |
| PolicyRegistryQuery.FindPackageLoop | src/policy_registry_query.cpp:59-95 | The lookup loop computes the first settling answer |
| PolicyRegistryObject.ScanAll | src/policy_registry.cpp:316-456 | The mutating scan computes the recursive scan |
| PolicyRegistryObject.RegistryScan.ReadRecord | src/policy_registry.cpp:336-450 | One record updates the scan state as the fold does |
| PolicyRegistryObject.SignedPolicyRegistryFile.Register | src/policy_registry.cpp:685-736 | Appends and reports exactly what the value-level registration does |
| PolicyRegistryObject.SignedPolicyRegistryFile.Control | src/policy_registry.cpp:738-865 | The same for activate, rollback and revoke |
| PolicyRegistryObject.SignedPolicyRegistryFile.PackageOfPolicy | src/policy_registry_query.cpp:99-104 | A package is returned only from a healthy registry |
| PolicyRegistryObject.SignedPolicyRegistryFile.CurrentPackage | src/policy_registry_query.cpp:106-112 | The active package, or none |
| PolicyRegistryObject.SignedPolicyRegistryFile.Evaluate | src/policy_registry.cpp:918-931 | A document is evaluated only while it is the registry's active policy |
| PolicyEngine.DecisionIsOrderFree | src/policy_engine.cpp:283-323 | For a valid document whose rules the hash keeps apart, decision, risk and reason do not depend on the order of the rules |
| PolicyEngine.ValidRulesAreDistinct | src/policy_engine.cpp:141-187 | Valid documents list their rules under distinct names, so rules the hash keeps apart have distinct identities |
| PolicyEngine.AppendTrace | src/policy_engine.cpp:104-116 | The trace is the first entries of the full trace that fit its budget, details cut, and flags what is dropped |
| PolicyEngine.DenyDominates | src/policy_engine.cpp:283-323 | ALLOW comes out exactly when some rule matches and every matching rule says ALLOW |
| PolicyEngine.Evaluate | src/policy_engine.cpp:213-323 | The loop decides by the lexicographic maximum of the matching rules, after budget, request and document checks, and traces risk, matches and decision in order |
| PolicyEngine.Select | src/policy_engine.cpp:283-310 | The winner beats or equals every other matching rule |
| PolicyEngine.WinnersAgree | src/policy_engine.cpp:283-310 | Any two winners have the same effect and priority |
| PolicyEngine.PolicyIdIsOrderFree | src/policy_engine.cpp:188-205 | The policy identity does not depend on the order its rules are listed in |
| Ordering.SortIsOrderFree | src/policy_engine.cpp:188-199 | Sorting the canonical rules forgets the order they were listed in |
| PolicyEngine.RiskIsMonotone | src/policy_engine.cpp:333-364 | Risk never falls when an operation becomes more uncertain or gains an effect |
| Sha256Object.HashPieces | src/sha256.cpp:35-140 | Any cut of a message under 2^61 bytes into updates gives the FIPS 180-4 digest of the whole |
| Sha256Object.HashWhole | src/sha256.cpp:159-163 | One-shot hashing gives that digest |
| Sha256Object.HashFile | src/sha256.cpp:165-189 | The chunk loop gives that digest, and none when the file cannot be opened or read to its end |
| Sha256Object.HashText | src/sha256.cpp:159-163 | The hash used by every journal is SHA-256 of the text |
| Sha256Object.Sha256State.constructor | src/sha256.cpp:142-155 | Starts from the initial hash words with nothing absorbed |
| Sha256Object.Sha256State.Update | src/sha256.cpp:35-54 | Absorbs the data: the message grows by it and all full blocks are transformed |
| Sha256Object.Sha256State.Finish | src/sha256.cpp:56-80 | Pads, ends on a block boundary, and prints the digest of everything absorbed |
| Sha256Object.Sha256State.Transform | src/sha256.cpp:82-140 | One in-place block equals the recursive schedule and rounds |
| Sha256Object.Sha256State.ExpandSchedule | src/sha256.cpp:82-103 | The in-place message schedule is the recursive one |
| Sha256.RoundConstantsAreCubeRoots | src/sha256.cpp:14-31 | Each round constant is the first 32 bits of the fractional part of a prime's cube root (section 4.2.2) |
| Sha256.InitialWordsAreSquareRoots | src/sha256.cpp:142-155 | Each initial word is that of a prime's square root (section 5.3.3) |
| Sha256.RotationsAreShifts | src/sha256.cpp:93-117 | Rotation is the pair of shifts of section 3.2 |
| Sha256.JoinIsShifts | src/sha256.cpp:86-91 | Four bytes widened, shifted to their places and united by or are the word they spell |
| Sha256.FipsAddsBothWays | src/sha256.cpp:93-117 | Four words may be added modulo 2^32 from either end |
| Sha256.PaddingIsLeast | src/sha256.cpp:56-72 | The zero padding is the least that completes a block (section 5.1.1) |
| Sha256.ProcessPrefix | src/sha256.cpp:82-140 | The state after some blocks depends on those blocks alone |
| WindowsQuoting.ArgumentsSurvive | src/native_process.cpp:195-199 | Splitting the joined command line returns the arguments exactly, for every list and both treatments of doubled quotes, if the program name holds no quote |
| WindowsQuoting.ArgumentsSurviveExactly | src/native_process.cpp:195-199 | For a given program name every list of arguments survives if and only if that name holds no quote |
| WindowsQuoting.ReadQuote | src/native_process.cpp:131-156 | One quoted argument reads back as itself up to the blank behind it |
| WindowsQuoting.QuoteLoop | src/native_process.cpp:131-156 | The loop with its backslash counter computes the recursive quoting |
| WindowsQuoting.CommandLineLoop | src/native_process.cpp:195-199 | The join loop computes the recursive join |
| Scorecard.Hydrate | src/scorecard_store.cpp:305-379 | The retained list opens a ranked list of all matching records, cut at the limit, and truncated holds exactly when some match was dropped |
| Scorecard.Retain | src/scorecard_store.cpp:340-366 | One more match keeps the best N, whichever way the sort orders equals |
| Scorecard.RetainedAreBest | src/scorecard_store.cpp:329-366 | Nothing dropped beats anything kept; the outcome depends neither on the order of the store nor on the sort, beyond records of one score, speed and run id |
| Scorecard.RankedIsUnique | src/scorecard_store.cpp:196-202 | Two ranked lists of the same records agree in rank at every place, and are equal when run ids are distinct |
| Scorecard.Append | src/scorecard_store.cpp:213-303 | Appends exactly a valid record with a new run id; distinct run ids stay distinct; a duplicate or unreadable line leaves the store as it was |
| RuntimeIdentityLaws.RunIsConsistent | src/runtime_identity_store.cpp:217-398 | After any run each record's count, first and last sighting and a device's strongest trust are those of the stored attestations naming it; referenced records exist; capacities hold |
| RuntimeIdentityLaws.RevocationIsFinal | src/runtime_identity_store.cpp:400-468 | Once revoked, a record's time, reason and tally never change and no later attestation naming it is stored |
| RuntimeIdentityLaws.OkMeansOnRecord | src/runtime_identity_store.cpp:217-270 | After Ok all three records exist, and the identity is active exactly when none of them is revoked; Recorded always means active |
| RuntimeIdentityLaws.ResentAfterRevocation | src/runtime_identity_store.cpp:238-262 | A re-sent attestation of a device revoked since is reported AlreadyRecorded, which counts as Ok |
| RuntimeIdentityLaws.ResentHappens | src/runtime_identity_store.cpp:238-262 | On a fresh store a concrete attestation is recorded, its device revoked, and re-sending it is Ok although the identity is no longer active |
| RuntimeIdentityReplay.IdentityReplayIsExact | src/runtime_identity_store.cpp:538-822 | Replay rebuilds the live store if and only if no committed observation met a record id holding other content; otherwise it reports damage |
| RuntimeIdentityReplay.ApartMeansNoCollision | src/runtime_identity_store.cpp:143-159 | That condition holds unless the hash maps two of the run's own inputs to one digest |
| RuntimeIdentityReplay.ReplayedIsConsistent | src/runtime_identity_store.cpp:538-822 | Whatever text replay accepts, the rebuilt indexes summarise the rebuilt attestations |
| RuntimeIdentityReplay.AcceptedReplays | src/runtime_identity_store.cpp:616-775 | What the live store accepts, replay admits exactly when no record id collides |
| RuntimeIdentityReplay.EventRoundTrip | src/runtime_identity_store.cpp:298-318 | Every journaled event is read back as it was |
| RuntimeIdentityReplay.DeviceTextSplits | src/runtime_identity_store.cpp:143-148 | Provider and device are determined by the text hashed into a device id |
| RuntimeIdentityObject.RuntimeIdentityStoreFile.constructor | src/runtime_identity_store.cpp:161-169 | Opening rebuilds memory by replay; an empty budget leaves the store unusable |
| RuntimeIdentityObject.RuntimeIdentityStoreFile.RecordAttestation | src/runtime_identity_store.cpp:217-398 | Performs one record step of the value-level store |
| RuntimeIdentityObject.RuntimeIdentityStoreFile.Withdraw | src/runtime_identity_store.cpp:400-468 | Performs one revoke step |
| RuntimeIdentityObject.RuntimeIdentityStoreFile.Active | src/runtime_identity_store.cpp:521-536 | Active exactly when the evidence is valid and all three records exist unrevoked |
| RuntimeIdentityObject.RuntimeIdentityStoreFile.CheckObservation | src/runtime_identity_store.cpp:238-294 | The refusals, in the source's order |
| RuntimeIdentityObject.RuntimeIdentityStoreFile.ReplayObserved | src/runtime_identity_store.cpp:666-775 | A collision found during replay leaves behind what was updated before it |
| RuntimeIdentityObject.RuntimeIdentityStoreFile.ReplayJournal | src/runtime_identity_store.cpp:538-822 | The replay loop rebuilds what the recursive replay defines |

## Left out

* Real files: directories, flushing, torn lines and several processes on one journal. A journal is a sequence of lines and
  an append either adds its whole line or nothing.
* Signature algorithms, key storage, hardware and process measurement, `fork`, `CreateProcessW`, pipes and memory sampling.
* Error texts. Statuses and use counts are modelled, the strings beside them are not. Where a session copies the
  validator's or the journal's error text into its reason and events, that text is an input; its own texts are the source's.
* Floating point: scores, confidences, thresholds and uncertainty are reals, and scoring itself is a function of the record.
* `std::sort` and `std::map` order: sorting is modelled by insertion, which `Ordering.SortIsOrderFree` shows makes no
  difference for texts. `Scorecard` relies on no more than a ranked list of the same records; which of several matches equal
  in score, speed and run id is kept is left open, as the sort leaves it.
* The `record_id` field of identity records is the key they are stored under, and is not kept twice.
* The line and rejection counters of a hydration, a read error half way, and adding the retained records to the
  destination scorecard with its own capacity.
* Conversion from UTF-8 to UTF-16 before quoting, and the refusal of NUL; arguments are arbitrary character sequences.
* The persistence of symbiosis grants, the operator console, release, artifact, model and dojo modules, the router and the
  command-line programs.
* Runs longer than 2^64 journal lines.
- Zenkai.RunLoop: takes its attempt function as a value; the session, whose attempts have effects, runs the same loop object
  round by round instead (`ExecutionOrchestrator.SessionRun.Loop`).
- PolicyRegistryObject.ScanAll: after a damaged line only the health flag matters; what a half-applied record leaves in the
  other fields is not modelled.
- RuntimeIdentityLaws.RunIsConsistent: the provider and device fields of a device record are those of its first attestation;
  that later ones agree is the subject of the collision lemmas.
- SessionKeyLedgerObject.SessionKeyLedgerFile.KeyIsTaken: the order in which registrations are visited is arbitrary.
