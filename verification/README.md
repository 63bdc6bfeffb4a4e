# EpochDeploy: a verified model of the deployment control plane

EpochDeploy freezes a release identity (project, environment, commit, artifact digest, config hash)
into an *epoch*, lets a person approve it or an AI agent execute it under a short-lived capability,
and compares it with the live target at the moment of execution. Two services take part: a Python
orchestrator with a relational database, and an executor, either in process or written in Go with
its own store of observed targets.

`dafny verify dfyconfig.toml` checks everything.

## How the project is laid out

| file | what it models |
|---|---|
| `Text.dfy` | trimming in Python and in Go, string order |
| `Json.dfy` | the JSON encoders of both runtimes and a decoder (section 7 of RFC 8259) |
| `Identities.dfy` | release identities, their canonical text and fingerprint in both runtimes, Go's loops over maps |
| `Comparison.dfy` | the field-by-field difference and the two ways of deciding an outcome |
| `Schemas.dfy` | the request validators |
| `Policy.dfy` | ALLOW / ASK / DENY |
| `Capability.dfy` | capability tokens: issue, verification in both runtimes, the executor's gate (section 7.1 of RFC 7515, section 3.2 of RFC 7518, section 4.1.4 of RFC 7519) |
| `Boundary.dfy` | the executor's target store and its `Execute` |
| `Signing.dfy` | signed calls between the services |
| `Ledgers.dfy` | an epoch's rows, and what each operation decides and writes |
| `Workflow.dfy` | the control plane as a transition system, one request at a time |
| `Effects.dfy` | what each request does in full: state and answer, every refusal included |
| `Reports.dfy` | the pipeline's word over whole runs: an epoch's status is that of its last accepted delivery |
| `Moves.dfy` | what a request does to one epoch |
| `Invariants.dfy` | what every ledger keeps in every run |
| `History.dfy` | theorems about whole runs |
| `Targets.dfy` | the targets over whole runs: what is held under which name, and what receipts can report |
| `Delegation.dfy` | from a capability to a receipt, end to end |
| `Tokens.dfy` | the grants behind receipts, unexpired when the receipt is written |
| `Terminal.dfy` | when an executed epoch can be executed once more |
| `Witnesses.dfy` | runs from the start that reach what the bounds allow |
| `Interleaving.dfy` | requests that overlap, split at lock, check, call and commit |
| `LockInvariant.dfy` | what the row lock guarantees between steps |
| `Serializability.dfy` | every overlap has the effect of a serial run |
| `Overlaps.dfy` | the theorems about runs for every schedule, and what overlapping executions are answered |
| `Arrivals.dfy` | interleaved runs from the caller's side: uninterrupted requests, and who is answered |
| `TokenFlow.dfy` | where the tokens presented in overlapping requests come from |
| `Libraries.dfy` | library functions that keep the promises asked of them, and a deployment built on them |
| `Services.dfy` | the service operations as imperative code on mutable rows, proved to be the steps of `Workflow` |

## Main results

- **Overlapping requests are serializable** (`EveryScheduleIsSerial`): for every schedule of arrivals,
  locks, checks, executor calls, commits, crashes and other requests the database equals that of one
  serial run of the committed requests. An execution stands where its target is read: at its check in
  process, at its call for the Go executor.
  The receipt theorems below carry over to every schedule (`EveryScheduleAuthorised`,
  `EveryScheduleAuthorisedNow`, `EveryScheduleApprovedOrAlone`, `EveryScheduleUnapproved`, `EveryScheduleChecked`, `EveryScheduleCheckedLocally`), and all executions under one
  key are answered with the same receipt (`AnswersAgree`).
  Conversely an uninterrupted request does exactly its serial step (`UninterruptedIsSerial`), every serial run
  whose requests read the clock at once is a schedule (`EverySerialRunIsScheduled`), and whatever answers an
  execution answers one that arrived for that epoch under that key (`AnswersArrival`).
- **Every request's effect is stated outright** (`Effects`): `Creates`, `RequestsChange`, `TakesDelivery`, `Approves`,
  `IssueTurnedDown`, `IssueGrants`, `Executes`, `AgentExecutes`, `Observes`, `Drifts` say the state and the answer in
  terms of the rows, with what each refusal leaves behind.
- **Receipts are bounded** (`ReceiptBound`, `ExecutionSpends`, `SpentIsFinal`): at most two per epoch,
  none after an execution under an approval. A run from the start reaches two (`TwoReceipts`), because
  approving does not look at the state. So an ended epoch is terminal exactly when it has an approval or
  no delivery can verify its pipeline any more (`EndedIsTerminalExactly`).
- **Every receipt of every run is authorised** (`EveryReceiptAuthorised`), under a grant not expired at
  that moment if agents present only issued tokens (`EveryReceiptAuthorisedNow`). Without an approval, with either executor, it is for an agent's
  change from DRAFT that reads, or writes outside production (`EveryReceiptApprovedOrAlone`), and with Go
  only for a deployment there (`EveryUnapprovedReceipt`); a production write is always approved
  (`ProductionWritesApproved`).
- **Every receipt reports the exact comparison** with the last observation that had reached the Go
  executor (`EveryReceiptChecked`, `EveryReceiptAgainstLastDelivered`), or in process with the database's
  row, which is the last one committed for exactly that project and environment (`EveryLocalReceiptChecked`,
  `EveryReceiptAgainstLastCommitted`); it never differs in more than commit, digest and configuration
  (`EveryReceiptOnlyContent`).
- **Delegation, end to end** (`DelegationExactly`): for an agent's epoch in any state, a capability asked
  for now and used later brings one receipt exactly when pipeline, policy or approval, key, target,
  expiry and executor allow it, and otherwise none.
- **An epoch's pipeline status is its last report** (`StatusIsLastReport`), so approvals and grants are given only
  while that report is success for the epoch's own commit (`GivenOnSuccess`).
- **The timeline rebuilds the rows**, every gated event follows a verification of the epoch's own
  commit, retries return the first receipt, repeated webhook deliveries do not matter.
- **The canonical text** is written out in full (`CanonicalTextWritten`, `EscapedAs`). It is decodable, and the two runtimes agree on it exactly on the common alphabet.
- **The service code** (class `Orchestrator`) is proved to perform exactly these steps, so the
  theorems about runs hold of its rows (`RowsKeepInv`).

## Hypotheses

SHA-256, HMAC, base64, JSON of claims and webhook bodies are functions of the configuration. Where a
result needs it, the hypothesis is in its `requires`: no collision between two named texts
(`NoCollision`, `MacSeparates`), decoding undoes encoding (`Lawful`, `LawfulMac`), a token that opens
under the secret came from an earlier response of the service (`OnlyIssuedTokens`), the common alphabet
(`CommonAlphabet`: no `<`, `>`, `&`, U+2028, U+2029, and no U+001C to U+001F, which Python trims and
Go does not). `Libraries` has functions that meet the laws, so the results that require them apply.

`Interleaving` assumes that `SELECT ... FOR UPDATE` hands the request the row as currently committed
(orchestrator/app/services.py:257-259). The epoch was loaded into the same session before
(orchestrator/app/main.py:442-446); whether the object mapper refreshes it then is outside this
repository. `StaleRowWouldProceed` shows a decision that comes out the other way on a stale row: after an
execution under an approval the committed row refuses a second one and the row before it does not.

One clock serves the orchestrator and the executor. With clocks that differ, an instant at which the
executor verifies a token is not comparable with the orchestrator's, and the results about expiry at
the moment of execution hold up to the difference.

An observation is committed to the database first and delivered to the Go executor afterwards. A call
that was given up may still arrive later, once (`Deliver`).

Clocks, random identifiers, and whether a call gets through are parameters of the requests. Times
are whole microseconds. Text is a sequence of Unicode scalar values.

## Where the code and its documentation differ

docs/jd-mapping.md:12 calls the state machine terminal. The code's `approve_epoch` ignores the state
(orchestrator/app/services.py:59-65), so an epoch executed by policy from DRAFT can be approved and
executed once more. The model follows the code; `EndedIsTerminalExactly` states the exact condition and
`TwoReceipts` gives the run.

## Model

| member | source | states |
|---|---|---|
| Text.TrimsAgreeExactly | executor/internal/core/core.go:33-35 | Python's `strip` and Go's `TrimSpace` give the same text exactly when Go's result neither starts nor ends with U+001C to U+001F |
| Text.TrimExactly | orchestrator/app/fingerprint.py:11 | trimming takes all whitespace off both ends and nothing else |
| Text.SpacesAre | executor/internal/core/core.go:33-35 | the characters trimmed, by code point, and the four that Python trims besides |
| Json.DecodeEncode | orchestrator/app/fingerprint.py:15 | decoding what either runtime encodes returns every member, for all strings: quotes, backslashes, control characters and HTML-escaped characters included |
| Json.EncodersAgree | executor/internal/core/core.go:54 | the two encoders write the same bytes if and only if no member has a character that only Go escapes |
| Json.EscapedAs | orchestrator/app/fingerprint.py:15 | which text is written for each character: itself exactly if plain, else its two-character form or four lower-case hexadecimal digits of its code |
| Json.EscapeAllConcat | executor/internal/core/core.go:54 | a string is written character by character, in order |
| Json.PlainAsIs | orchestrator/app/fingerprint.py:15 | text of plain characters is written as it stands |
| Identities.DecodeCanonicalText | orchestrator/app/fingerprint.py:10-16 | the decoder gets the five trimmed fields back from the canonical text |
| Identities.CanonicalTextWritten | orchestrator/app/fingerprint.py:14-16 | the canonical text in full: five named members in this order with their escaped trimmed values and nothing else |
| Identities.PlainFingerprint | executor/internal/core/core.go:37-57 | for plain values the fingerprint is the hash of the trimmed values between fixed keys and punctuation |
| Identities.CanonicalTextInjective | orchestrator/app/fingerprint.py:10-16 | across runtimes, equal canonical texts mean equal trimmed identities |
| Identities.FingerprintsSeparate | orchestrator/app/fingerprint.py:14-16 | without a collision on the two texts, fingerprints are equal exactly when the trimmed identities are |
| Identities.RuntimesAgreeExactly | executor/internal/core/core.go:37-57 | the two runtimes give an identity the same canonical text if and only if it is in the common alphabet, and then the same fingerprint |
| Identities.ListingUnique | executor/internal/core/core.go:49 | a map has only one listing with strictly increasing keys, so map iteration order cannot show |
| Identities.CanonicalItemsListed | orchestrator/app/fingerprint.py:15 | the members in the order written are the sorted listing of the five named fields |
| Identities.RangeKeys | executor/internal/core/core.go:45-48 | ranging over a map in any order collects each key once |
| Identities.SortedIncreasing | executor/internal/core/core.go:49 | sorting distinct keys gives the same keys in strictly increasing order |
| Identities.WriteObject | executor/internal/core/core.go:54 | the writing loop produces the encoded object |
| Identities.MarshalMap | executor/internal/core/core.go:50-54 | marshalling a map gives the encoding of its one sorted listing |
| Identities.CopyInOrder | executor/internal/core/core.go:50-53 | copying the map key by key gives the map itself |
| Identities.GoFingerprint | executor/internal/core/core.go:37-57 | the executor's fingerprint code, loops included, computes the digest of the canonical text whatever order the map is ranged in |
| Comparison.DiffIdentity | orchestrator/app/fingerprint.py:19-25 | the Python loop computes the specified difference list |
| Comparison.Compare | executor/internal/core/core.go:59-84 | the Go code computes the specified outcome, reason, fingerprint and differences |
| Comparison.NameFields | executor/internal/core/core.go:74-80 | the loop joins the field names with commas |
| Comparison.NamesJoined | executor/internal/core/core.go:74-80 | the names stand in order with a comma and a space between neighbours |
| Comparison.ReasonsAre | executor/internal/core/core.go:81-83 | the reason texts of the two outcomes, in both executors |
| Comparison.DiffExact | executor/internal/core/core.go:60-70 | a field is listed if and only if its trimmed values differ, with exactly those values |
| Comparison.DiffOrdered | orchestrator/app/fingerprint.py:7-25 | the list follows field order and names no field twice |
| Comparison.PatchDiff | orchestrator/app/fingerprint.py:19-25 | applying the list to the trimmed expected identity gives the trimmed observed one |
| Comparison.DiffNecessary | orchestrator/app/fingerprint.py:19-25 | any list of changes leading from one to the other mentions every listed field |
| Comparison.DiffMinimal | orchestrator/app/fingerprint.py:19-25 | no list of changes that does the same is shorter |
| Comparison.DiffEmpty | executor/internal/core/core.go:73-83 | the list is empty exactly when the trimmed identities are equal |
| Comparison.CompareDecides | executor/internal/core/core.go:72-83 | the Go outcome is EXECUTED exactly for equal trimmed identities and DENIED_STALE exactly with differences |
| Comparison.ExecutorsAgree | orchestrator/app/executor_client.py:95-104 | the fingerprint-first and the difference-first decision give the same outcome, fingerprint, reason and list, over the common alphabet and without a collision |
| Comparison.DecisionsAgree | orchestrator/app/executor_client.py:95-104 | where the two runtimes trim both identities alike, outcome, reason and differences agree without a collision, inside the common alphabet or not |
| Comparison.ObservedFingerprintsAgreeExactly | executor/internal/core/core.go:72 | the reported fingerprints agree exactly on the common alphabet, without a collision |
| Comparison.LocalDecides | orchestrator/app/executor_client.py:95-104 | in process EXECUTED means equal fingerprints; a refusal always has differences; without a collision the outcome is exactly equality of the trimmed identities |
| Comparison.ExecutedSplitsExactly | executor/internal/core/core.go:72-83 | an EXECUTED Go comparison shows two different fingerprints exactly when the release is outside the common alphabet, without a collision |
| Comparison.AmpersandSplitsFingerprints | orchestrator/app/schemas.py:27 | a release that the API takes unchanged, of a project with `&`, is EXECUTED against itself by Go with a fingerprint other than Python's |
| Schemas.ParsedIsValid | orchestrator/app/schemas.py:26-52 | what the validators let through is stripped, within the length bounds, in its formats, and has its content references in lower case |
| Schemas.ValidExactly | orchestrator/app/schemas.py:26-52 | the valid identities are exactly those the validators return unchanged |
| Schemas.ParseTextExactly | orchestrator/app/schemas.py:11-12 | a text field is taken exactly if what stands between its outer whitespace is within the bounds, and that is taken |
| Schemas.ParsedFields | orchestrator/app/schemas.py:26-52 | which identities are taken, and what is kept of each field |
| Schemas.FormatsAsPatterns | orchestrator/app/schemas.py:6-8 | the digest and configuration formats as their patterns read |
| Schemas.EnvironmentAsPattern | orchestrator/app/schemas.py:28 | the environment format as its pattern reads |
| Schemas.ValidCommonAlphabet | orchestrator/app/schemas.py:26-52 | a validated identity is in the common alphabet exactly when its project is |
| Policy.PolicyTable | orchestrator/app/policy.py:14-56 | the three answers partition validated agent requests: which actions and environments give which |
| Policy.PolicyRules | orchestrator/app/policy.py:19-56 | which rule answers a validated agent request |
| Policy.PolicyForOthers | orchestrator/app/policy.py:35-56 | anyone but an agent is asked for whatever is neither destructive nor reading |
| Policy.AllowedDeployIsNonProduction | orchestrator/app/policy.py:43-49 | a deployment is allowed without approval exactly in the four non-production environments |
| Capability.OpenSigned | orchestrator/app/capability.py:45 | opening a signed token returns its claims |
| Capability.OpensExactly | executor/internal/boundary/boundary.go:84-108 | a token opens exactly if it is three dot-separated segments naming HS256, with the MAC of the first two, and readable claims |
| Capability.VerifyCapability | executor/internal/boundary/boundary.go:82-134 | the Go verification with its checking loop computes the specified verdict |
| Capability.ScopeMatches | executor/internal/boundary/boundary.go:115-132 | the loop of claim checks passes exactly for equal scopes |
| Capability.ExpiryRulesAgree | executor/internal/boundary/boundary.go:112-114 | comparing whole seconds and comparing the exact clock expire a token at the same instant |
| Capability.AcceptedExactly | orchestrator/app/capability.py:49-72 | exactly which claims and times each runtime accepts |
| Capability.VerifiersAgree | executor/internal/boundary/boundary.go:82-134 | the executor accepts what the orchestrator accepts; the converse fails only before the issue time |
| Capability.IssuedAcceptedExactly | orchestrator/app/capability.py:27-46 | an issued capability is accepted by both runtimes exactly for its own scope and until its whole-second expiry, never after the recorded one |
| Capability.IssuedPassesGateExactly | executor/internal/boundary/boundary.go:146-172 | the executor's gate opens for an issued capability exactly for an unexpired `deploy` in the common alphabet |
| Boundary.TargetStore.Put | executor/internal/boundary/boundary.go:35-39 | the store then answers with this identity for its key and as before for every other |
| Boundary.TargetStore.Find | executor/internal/boundary/boundary.go:41-46 | the lookup finds the identity under the key, or nothing |
| Boundary.TargetStore.Execute | executor-gin/cmd/server/grpc_server.go:115-160 | gate, lookup, comparison and copy loop together give the specified answer |
| Boundary.CopyDifferences | executor-gin/cmd/server/grpc_server.go:146-153 | the response lists exactly the differences, in order |
| Boundary.TargetKeyInjective | executor/internal/boundary/boundary.go:31-33 | with no NUL in the environments, keys are equal exactly for the same trimmed project and environment |
| Boundary.TargetKeyCollision | executor/internal/boundary/boundary.go:31-33 | with a NUL two different targets can share a key |
| Boundary.LookupIsLastPut | executor/internal/boundary/boundary.go:35-46 | after any sequence of observations the store holds exactly the last one of each target |
| Boundary.LookupSameTarget | executor/internal/boundary/boundary.go:31-46 | what the store answers with has the trimmed project and environment asked for |
| Boundary.StoredDifferences | executor/internal/core/core.go:60-70 | a release compared with what the store answers for it differs only in commit, digest and config, at most three differences |
| Boundary.BothGatesOpen | executor/internal/boundary/boundary.go:146-172 | a `deploy` capability the orchestrator accepts opens both executors' gates |
| Boundary.ExecutorsAnswerAlike | orchestrator/app/executor_client.py:79-104 | for one release and target, human or acceptable agent, the in-process and the Go executor give the same answer |
| Signing.ParseDecimal | executor/internal/boundary/boundary.go:175-178 | reading a printed timestamp gives the number back, and it has no dot |
| Signing.DecimalNumerals | orchestrator/app/executor_client.py:38 | timestamps are printed in decimal |
| Signing.FrameInjective | orchestrator/app/executor_client.py:41 | one signed text stands for one timestamp, one of the two signed methods and one body |
| Signing.FrameAmbiguous | orchestrator/app/executor_client.py:41 | for arbitrary method names the dots alone would not delimit |
| Signing.SignedCallAdmittedExactly | executor-gin/cmd/server/grpc_server.go:48-87 | a signed call is admitted exactly for the signed method and body, within thirty seconds of the signed second |
| Moves.StepIsMove | orchestrator/app/services.py:32-327 | every request makes one of eight moves, when enabled, to each existing epoch and never removes one |
| Moves.AdmitFacts | orchestrator/app/services.py:182-224 | an admitted agent's context is for this epoch, its change and its fingerprint, and the policy did not deny |
| Moves.StepCreates | orchestrator/app/services.py:32-52 | only a valid creation request adds an epoch, pending and in DRAFT, with its own fingerprint |
| Effects.Creates | orchestrator/app/services.py:32-52 | a valid identity under a new id is frozen: its whole ledger; anything else is refused without a trace |
| Effects.RequestsChange | orchestrator/app/governance.py:41-77 | the change and its event, or nothing |
| Effects.TakesDelivery | orchestrator/app/main.py:349-380 | a taken Pipeline Hook gives each epoch of its pipeline the reported status, or a mismatch, with one event exactly on a transition, and leaves the others; any other taken delivery is recorded only |
| Effects.RefusesDelivery | orchestrator/app/main.py:330-342 | too long, repeated, not JSON, unreadable: the answers, and nothing changed |
| Effects.Approves | orchestrator/app/services.py:55-77 | state, approval, event and answer, in each case |
| Effects.IssueNotAsked | orchestrator/app/services.py:89-93 | without an agent's change on a verified pipeline a request leaves nothing behind |
| Effects.IssueTurnedDown | orchestrator/app/services.py:95-124 | a DENY, or an ASK without an approval in force, commits exactly the ruling's event and is refused |
| Effects.IssueGrants | orchestrator/app/services.py:126-173 | a grant of exactly this scope and lifetime, its two events, the identifier, and a token that opens to its claims |
| Effects.IssueRepeatedIdentifier | orchestrator/app/services.py:139-151 | a taken identifier fails the commit, ruling and all |
| Effects.Observes | orchestrator/app/services.py:227-247 | the row of exactly that project and environment, and the executor's copy or the undelivered update |
| Effects.Drifts | orchestrator/app/main.py:423-439 | one content field of the epoch's target row, or the refusal |
| Effects.DoesTheRest | orchestrator/app/services.py:243-247 | late deliveries, evidence, time, and a restart of the executor |
| Effects.Executes | orchestrator/app/services.py:250-328 | a person's execution: replay, each refusal, or the whole new ledger |
| Effects.AdmitsExactly | orchestrator/app/services.py:182-223 | who is admitted, and the context sent along |
| Effects.AgentExecutes | orchestrator/app/services.py:176-224 | an agent's execution: refused without a trace, or executed in the name of the change |
| Effects.RunsQualify | orchestrator/app/models.py:95 | in every run keys and grant identifiers are unique within an epoch |
| Reports.StatusIsLastReport | orchestrator/app/main.py:355-358 | in every run an epoch's status is "pending" or that of the last accepted delivery for its pipeline since it was created |
| Reports.GivenOnSuccess | orchestrator/app/services.py:59-60 | an approval or grant is given only while that delivery reported success for the epoch's own commit |
| Invariants.MoveReplays | orchestrator/app/governance.py:19-38 | every move appends events that account for its column changes |
| Invariants.MoveWithinBudget | orchestrator/app/services.py:59-76 | no move raises the budget and an execution lowers it |
| Invariants.MoveVerifiedFirst | orchestrator/app/main.py:355-378 | approval, policy, capability and outcome events keep coming after a verification |
| Invariants.RunKeepsInv | orchestrator/app/services.py:32-327 | all ledger invariants hold in every state of every run |
| History.RunExtends | orchestrator/app/services.py:55-327 | over any run an epoch's identity and fingerprint stay, and its lists of events, grants, receipts and outbox entries only grow |
| History.TimelineRebuildsRows | orchestrator/app/governance.py:19-38 | replaying the timeline gives state, approval, change, grants and receipts; one APPROVED event exactly if there is an approval |
| History.GatedAfterVerified | orchestrator/app/main.py:355-378 | every approval, policy, capability and outcome event has an earlier PIPELINE_VERIFIED of the epoch's commit |
| History.OutboxMirrorsReceipts | orchestrator/app/services.py:291-312 | outbox entries and receipts correspond one to one in order, and keys are unique |
| History.ReceiptBound | orchestrator/app/services.py:266-305 | receipts plus remaining budget never exceed two |
| History.ExecutionSpends | orchestrator/app/services.py:266-305 | every new receipt strictly lowers the budget and nothing raises it |
| History.SpentIsFinal | orchestrator/app/services.py:266-272 | an epoch that ended under an approval never gets another receipt, whatever follows |
| History.StaleRowWouldProceed | orchestrator/app/services.py:257-272 | the committed row refuses a second execution that the row before it would let through |
| History.ApproveThenExecuteAgain | orchestrator/app/services.py:55-77 | a verified epoch without an approval, whose target the executor answers for, is approved and executed |
| Terminal.HookVerifies | orchestrator/app/main.py:352-378 | an unrecorded delivery that reports the pipeline and the commit verifies the epoch: its timeline gains PIPELINE_VERIFIED unless the status was already success, and its release, state, approval, change, grants, receipts and outbox stay |
| Terminal.StuckForever | orchestrator/app/services.py:59-60 | an ended, unapproved, unverified epoch that no delivery can verify stays as it is through any requests |
| Terminal.EndedIsTerminalExactly | docs/jd-mapping.md:12 | an ended epoch is terminal if and only if it has an approval or its pipeline is unverified and no unrecorded delivery can verify it |
| History.ReceiptHasWriter | orchestrator/app/services.py:291-305 | every receipt was written by one request of the run, which decided and called for it |
| History.EveryReceiptAuthorised | orchestrator/app/services.py:266-276 | when a receipt was written there was an approval of the epoch's own fingerprint, or an ALLOW and a token, unexpired then, of an unrevoked grant of exactly its scope that was unexpired at admission |
| Tokens.ResponseLeavesGrant | orchestrator/app/services.py:139-173 | a response with a capability leaves the grant its token names, with the same whole-second expiry |
| Tokens.EveryReceiptAuthorisedNow | orchestrator/app/services.py:198-206 | if every token that opens was issued by an earlier response, the grant itself was unexpired when the receipt was written |
| History.AnsweredUnexpired | executor/internal/boundary/boundary.go:112-114 | an executor's answer to an agent implies the token is unexpired at that moment and, for Go, a `deploy` |
| History.EveryReceiptApprovedOrAlone | orchestrator/app/policy.py:27-49 | with either executor an unapproved receipt is from DRAFT, for reading anywhere or writing in a non-production environment; it is a non-production deployment exactly if it is a `deploy`, and with Go it is one |
| History.EveryUnapprovedReceipt | executor/internal/boundary/boundary.go:146-172 | with the Go executor an unapproved receipt is a `deploy` from DRAFT in a non-production environment |
| History.ProductionWritesApproved | orchestrator/app/policy.py:35-41 | with either executor a change that is neither reading nor a non-production write is executed only under an approval |
| History.EveryReceiptChecked | executor/internal/core/core.go:59-84 | with the Go executor every receipt is the exact comparison of the frozen release with the target held then; EXECUTED matches equal fingerprints |
| History.EveryLocalReceiptChecked | orchestrator/app/services.py:277-294 | in process every receipt is the exact comparison of the frozen release with the database's target row of that moment: fingerprints, differences, and the outcome rule |
| History.SplitReceiptsExactly | orchestrator/app/schemas.py:27 | an EXECUTED receipt of the Go executor carries two different fingerprints exactly when the epoch's project is outside the common alphabet, without a collision |
| Targets.RunKeepsTargets | orchestrator/app/services.py:227-240 | in every run every target is held under its own project and environment, in the database and in the executor |
| Targets.HeldIsLastDelivered | executor/internal/boundary/boundary.go:35-46 | in every run the executor answers with the last observation of the target delivered since it last started |
| Targets.LiveIsLastCommitted | orchestrator/app/services.py:227-238 | in every run the database's row is the last one committed for exactly that project and environment, none before the first |
| Targets.EveryReceiptAgainstLastDelivered | executor-gin/cmd/server/grpc_server.go:141-145 | every Go receipt is the exact comparison with the last observation delivered before it |
| Targets.EveryReceiptAgainstLastCommitted | orchestrator/app/services.py:277-294 | in process every receipt is the exact comparison with the last row committed for its project and environment |
| Targets.EveryReceiptOnlyContent | executor/internal/core/core.go:60-70 | with either executor every receipt has at most three differences, all in commit, digest or config |
| History.RetryReturnsReceipt | orchestrator/app/services.py:260-265 | in every later state a request with a used key returns its receipt and changes nothing |
| History.HooksRecorded | orchestrator/app/main.py:336-345 | the recorded body hashes are those of the accepted deliveries |
| History.RepeatsDoNotMatter | orchestrator/app/main.py:336-380 | dropping every repeated delivery from any run gives the same state |
| Delegation.RunKeepsGrantIds | orchestrator/app/services.py:198-201 | in every run a capability identifier belongs to one grant of one epoch, so the lookup by identifier finds that epoch's |
| Delegation.GrantableExactly | orchestrator/app/services.py:89-124 | a capability is granted exactly for a verified pipeline and an ALLOW, or an ASK with the epoch approved |
| Delegation.AdmittedExactly | orchestrator/app/services.py:182-213 | a fresh capability is admitted exactly when it was granted and is unexpired, for an epoch in any state |
| Delegation.AnsweredExactly | executor/internal/boundary/boundary.go:146-172 | the configured executor answers it exactly for what it takes: any change in process, an observed `deploy` in the common alphabet for Go |
| Delegation.DecideExactly | orchestrator/app/services.py:260-282 | an agent's execution proceeds exactly for an unused key, a known target, and an epoch approved or allowed from DRAFT |
| Delegation.DelegationExactly | orchestrator/app/services.py:80-224 | issue, wait, execute, from any state: one more receipt exactly when granted, still to be executed, known, unexpired and taken, and none otherwise |
| Witnesses.TwoReceipts | orchestrator/app/services.py:59-65 | for every non-production release and delivery that reports its pipeline, some run from the start has two receipts for it |
| Witnesses.LocalReadsWithoutApproval | orchestrator/app/executor_client.py:79-94 | in process, for every release of any environment, some run from the start has a receipt written without an approval and not for a non-production deployment |
| Witnesses.ApprovedDelegation | orchestrator/app/services.py:116-173 | for every production release some run from the start has the agent's change approved, granted and executed under the capability |
| Libraries.SomeJwsIsLawful | orchestrator/app/capability.py:45 | a coding without dots and JSON claims meet the laws asked of the token libraries |
| Libraries.SomeDeploymentReachesTwo | orchestrator/app/services.py:59-65 | with either executor a concrete configuration and release meet every hypothesis, and some run has two receipts |
| LockInvariant.AdmitStable | orchestrator/app/services.py:182-213 | an agent admitted before the lock would be admitted on every later ledger, with the same context |
| LockInvariant.AnswerableEarlier | orchestrator/app/executor_client.py:81-94 | an admitted token accepted at the call would have been accepted at any moment since admission |
| LockInvariant.CInvStep | orchestrator/app/services.py:257-259 | between any two steps the lock holder's row is the committed one and its decision stands |
| Serializability.CheckMatches | orchestrator/app/services.py:277-294 | an in-process execution can stand at its check |
| Serializability.CallMatches | orchestrator/app/executor_client.py:132-145 | an execution through the Go executor can stand at its call |
| Serializability.CommitMatches | orchestrator/app/services.py:291-328 | a commit writes what the serial run shows |
| Serializability.EnvironmentMatches | orchestrator/app/main.py:355-380 | webhooks, observations and creations commute with executions under way |
| Serializability.EveryScheduleIsSerial | orchestrator/app/services.py:55-328 | every schedule of overlapping requests leaves the database of a serial run of the committed ones |
| Arrivals.UninterruptedIsSerial | orchestrator/app/services.py:55-328 | a request that meets its epoch unheld and is not interrupted leaves exactly the database of its serial step |
| Arrivals.EverySerialRunIsScheduled | orchestrator/app/services.py:55-328 | every serial run whose requests read the clock at once is the database of a schedule |
| Arrivals.ThreadArrived | orchestrator/app/main.py:204-227 | every thread runs the request that arrived: same operation, epoch, key and token |
| Arrivals.AnswersArrival | orchestrator/app/services.py:260-265 | whatever answers an execution answers one that arrived for that epoch under that key |
| Arrivals.LocksExactly | orchestrator/app/services.py:257-259 | a waiting request takes the lock exactly when nobody holds it, with the committed ledger |
| Arrivals.CrashRollsBack | orchestrator/app/services.py:257-259 | a crash at any point leaves the database and everybody else alone and frees the lock |
| Arrivals.OthersWaitExactly | orchestrator/app/main.py:354-380 | a request of another kind waits only for a held epoch it would change |
| Serializability.EveryScheduleKeepsInv | orchestrator/app/services.py:55-328 | overlapping requests keep every ledger invariant |
| Overlaps.EveryScheduleAuthorised | orchestrator/app/services.py:266-276 | every receipt of every schedule was authorised where its execution stands |
| Overlaps.EveryScheduleApprovedOrAlone | orchestrator/app/policy.py:27-49 | with either executor the receipts of any schedule are approved or for a change the policy allows alone |
| Overlaps.EveryScheduleUnapproved | executor/internal/boundary/boundary.go:146-172 | with the Go executor an unapproved receipt of any schedule is a non-production `deploy` from DRAFT |
| TokenFlow.SerialOnlyIssued | orchestrator/app/services.py:138-173 | if each token presented in a schedule that opens was handed out by an earlier commit, the serial run presents only issued tokens |
| TokenFlow.EveryScheduleAuthorisedNow | orchestrator/app/services.py:198-206 | in such a schedule every receipt rests on an approval or on a grant unexpired where its execution stands |
| Overlaps.EveryScheduleChecked | executor/internal/core/core.go:59-84 | every Go receipt of any schedule is the exact comparison with the last observation delivered before it stands |
| Overlaps.EveryScheduleCheckedLocally | orchestrator/app/services.py:277-294 | in process, with the database's row where it stands |
| Overlaps.EveryScheduleAgainstLastCommitted | orchestrator/app/services.py:277-294 | that row is the last one committed for exactly the release's project and environment |
| Overlaps.AnswerIsCommitted | orchestrator/app/services.py:260-265 | an overlapping execution is answered only with a receipt committed by then |
| Overlaps.UsedKeyAnswered | orchestrator/app/services.py:260-265 | a request whose key is used when it holds the lock is answered with that receipt and changes nothing |
| Overlaps.AnswersAgree | orchestrator/app/models.py:95 | in every schedule all executions under one key, which by `AnswersArrival` is the key that arrived, are answered with the same receipt |
| Services.EpochRecord.TakeStatus | orchestrator/app/main.py:356-378 | a row takes the reported status and records a transition exactly when there is one |
| Services.EpochRecord.SearchReceipt | orchestrator/app/services.py:260-263 | finds the receipt with the key, if any |
| Services.EpochRecord.SearchGrant | orchestrator/app/services.py:198-201 | finds the grant with the identifier, if any |
| Services.ReadBody | orchestrator/app/main.py:330-335 | exactly the bodies within the limit come through, however they are cut into chunks |
| Services.JoinedInOrder | orchestrator/app/main.py:330-332 | the body is the chunks one after the other |
| Services.CopyFields | orchestrator/app/services.py:235-237 | setting the attributes one by one makes the row equal to the payload |
| Services.Orchestrator.CreateEpoch | orchestrator/app/services.py:32-52 | performs the creation step, or refuses invalid input |
| Services.Orchestrator.CreateChangeRequest | orchestrator/app/governance.py:41-77 | performs the second commit of an agent's change |
| Services.Orchestrator.ApproveEpoch | orchestrator/app/services.py:55-77 | performs the approval step |
| Services.Orchestrator.IssueExecutionCapability | orchestrator/app/services.py:80-173 | performs the issue step, with the two refusals that commit the policy event |
| Services.Orchestrator.DecideExecution | orchestrator/app/services.py:260-282 | the checks in order give the specified decision |
| Services.Orchestrator.CallClient | orchestrator/app/services.py:291-294 | the configured executor's answer, if the call gets through |
| Services.Orchestrator.ExecuteEpoch | orchestrator/app/services.py:250-328 | decision, call and commit together are the specified execution |
| Services.Orchestrator.AdmitAgent | orchestrator/app/services.py:182-223 | the agent's checks give the specified admission |
| Services.Orchestrator.ExecuteByHuman | orchestrator/app/main.py:224-227 | performs a person's execution step |
| Services.Orchestrator.ExecuteByAgent | orchestrator/app/services.py:176-224 | performs an agent's execution step |
| Services.Orchestrator.UpdatePipelines | orchestrator/app/main.py:354-378 | exactly the epochs with the pipeline id take the status, in any order |
| Services.Orchestrator.GitlabWebhook | orchestrator/app/main.py:321-380 | performs the webhook step, from chunks to commit |
| Services.Orchestrator.UpsertTarget | orchestrator/app/services.py:227-240 | the database row becomes the payload; the executor hears of it if the call gets through, and otherwise it stays undelivered |
| Services.Orchestrator.LateObservation | orchestrator/app/services.py:243-247 | a call given up reaches the executor after all |
| Services.Orchestrator.ObserveTarget | orchestrator/app/main.py:251-255 | performs the observation step |
| Services.Orchestrator.DemoDrift | orchestrator/app/main.py:423-439 | performs the drift step |
| Services.Orchestrator.SaveEvidence | orchestrator/app/services.py:332-368 | appends one event |
| Services.Orchestrator.RowsKeepInv | orchestrator/app/services.py:32-327 | after any requests the service's rows satisfy every ledger invariant and the receipt bound |

## Left out

- Login, sessions, roles, webhook tokens, security headers, configuration, demo bootstrap (which deletes rows in bulk), listings and views, including `build_passport`.
- SHA-256, HMAC, base64 and JWT internals: functions under stated hypotheses. Absent claims are not told apart from empty ones, and the libraries' extra checks of a token's form are not modelled.
- Capability.AcceptedExactly: a token whose `iat` is ahead is refused by the orchestrator's library; claim types other than the issued ones are not modelled.
- Json.EncodersAgree: Go's short escapes for backspace and form feed are those of Go 1.22 and later (executor/go.mod:3 asks for 1.23).
- Identities.SortedIncreasing: `sort.Strings` is modelled by its result on values, not as an in-place sort.
- Lengths of idempotency keys, tokens, approver names, pipeline statuses and change texts, and the bounds on the capability lifetime, are not enforced: the model accepts more requests than the service does, so its results over all runs cover the service's runs.
- Column widths of pipeline statuses: a status too long for its column would fail the webhook's commit.
- The order of outbox entries of different epochs: entries are kept per epoch.
- Column widths of drifted values: a drift value longer than its column (64 characters for a commit, 128 for digest and config) would fail the commit.
- Interleavings inside a webhook, a creation, an observation or a drift: each is one step. The second half of an observation can come late as a step of its own (`Deliver`). That such a writer waits for a locked epoch is PostgreSQL's locking, assumed and not modelled.
- Evidence files, latency values, wall-clock zones and random identifiers; a repeated random identifier is a refused request.
- The stdlib HTTP executor server, which repeats the store and comparison without an agent's context, and the HTTP framing of signed bodies.
- Serializability.EveryScheduleIsSerial: equates databases, not responses; `Overlaps` says what executions are answered, and responses of overlapping approvals and capability requests are not stated.
- Arrivals.EverySerialRunIsScheduled: serial requests stamped or admitted at an earlier instant than their step are allowed in `Workflow` and stand for overlaps; as serial requests they need not be schedules.
- Progress: no result says that a request is eventually served.
