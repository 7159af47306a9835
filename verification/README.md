# CryptNA: history-bound authority, modelled and proved

CryptNA lets a policy enforcement point (PEP) install IPsec tunnels only while it can account for what it has done.
The PEP keeps a hash-chained log of every tunnel it sets up and tears down, and signs checkpoints over it; a Verifier
replays the log and, if every session has lived a complete life, issues a short-lived capacity token for the
checkpoint; the PEP binds each tunnel to its token, and clients check the binding. This project models that protocol
from end to end and proves what it is for, over whole runs of the two parties with lost, duplicated and delayed
messages, failing writes, crashes of either side, and impostors who send whatever they can make without a key.
It also covers the pieces the protocol stands on.

## How it is organised

| file | models |
|---|---|
| `Protocol.dfy`, `Wrappers.dfy` | the wire and storage records |
| `Text.dfy` | trimming, lower case, the count-map comparison of string lists |
| `Attest.dfy`, `Tokens.dfy`, `Tunnels.dfy` | canonical hashing, the evidence check, tokens, bindings; what stands behind a tunnel a client accepts |
| `History.dfy` | the PEP's event log as a class, its specification, every reachable history |
| `Policy.dfy`, `AcceptedEvents.dfy`, `Lifecycle.dfy`, `ActivationExpiry.dfy`, `SessionKeys.dfy` | the Verifier's lifecycle machine; when it takes an event; the same as a grammar; the one expiry it does not bound; what a session key identifies |
| `Verifier.dfy`, `HandlerDecisions.dfy`, `VerifierRuns.dfy`, `Grants.dfy` | the capacity handler as a class; what it decides; its runs under concurrency and restarts; what its tokens are worth |
| `Pep.dfy`, `PepDecisions.dfy`, `OpenSessions.dfy`, `Authority.dfy` | the PEP's durable state and transactions; what each does and logs; the two parties together |
| `OpenNetwork.dfy`, `SealedRuns.dfy`, `Impostors.dfy`, `SignatureText.dfy` | the two parties with anyone sending either of them anything; what the PEP has pending in every run; what impostors achieve; what survives them and what does not |
| `SessionTable.dfy`, `CrashConsistency.dfy`, `Interruption.dfy` | the session table against the log; what a state file is worth after a crash; when the next process refuses it |
| `Transactions.dfy` | the transactions of the PEP's class as runs of the steps the above is proved of |
| `DeltaReplay.dfy`, `HonestEvents.dfy`, `HonestRuns.dfy`, `Completeness.dfy` | an honest PEP is never turned down |
| `Lifetime.dfy` | SA lifetimes and the client's check of a tunnel |
| `Allocator.dfy`, `Observer.dfy`, `Xfrm.dfy` | reqid and address allocation; the kernel event window; XFRM plans against a kernel table |
| `Numbering.dfy`, `KernelRuns.dfy` | what allocated numbers are for: keys and selectors of one session only; process, allocators and kernel in one run |
| `Spa.dfy`, `SpaSchedule.dfy`, `ReplayCache.dfy` | single-packet authorisation; its keys, and who can open a packet; the replay cache |

Code that updates objects is a class here (`EnforcementHistory`, `CapacityServer`, `EnforcementPoint`, `Allocators`,
`XfrmObserver`, `SymmetricState`, `Cache`), loops are loops with invariants, and each method is tied to a function of the
old state; the theorems are about these functions, and `Transactions.dfy` takes the PEP's transactions apart into the
steps its machine takes. What a check or a step means is also stated once without the functions that compute it, in
times, fields and hashes (`AcceptedEvents`, `HandlerDecisions`, `PepDecisions`, `Tunnels`, `SpaSchedule`). A machine is a total step function folded over a list of steps:
a step that does not apply changes nothing, so a theorem for all lists of steps is a theorem for all interleavings.

Hashes, signatures, Curve25519, AES-GCM, base64 and RFC 3339 formatting are fields of a record (`Primitives`, `Suite`).
What a theorem needs of them it requires by name: `CollisionFree`, `KeyPair` (signing under a private key verifies
under the public one), `Rfc3339` (formatting drops the fraction of a second, parsing reads back the rest, section 5.6
of RFC 3339), `AeadCorrect`, `Commutes`, `Sizes`. In `Authority` only histories the PEP sent are delivered under its
name; `OpenNetwork` lifts that, and asks of signatures only that nobody without the key signs anything new (`Unforged`,
`TokenUnforged`). The text of a signature is not signed: decoding base64 skips line breaks, so anyone can write it
differently (`IgnoresLineBreaks`). Clock readings, the outcome of every write and kernel call, and what
the observer reports are parameters. Times are integer nanoseconds.

## Where the code does less than one might expect

Each of these is a lemma with the exact condition or a concrete case.

- `SignatureText.AgreementIsExact`, `SignatureText.CopyPartsThem`, `SignatureText.ShutOutForGood`: checkpoint hashes, the
  retry test and the comparison of checkpoints take in the text of the signature. If somebody resends the PEP's
  checkpoint with a line break after its signature, and that copy is served first, the Verifier commits it; from
  then on it refuses everything the PEP sends, and none of its tokens is good for what the PEP has pending. The
  two agree exactly as long as every checkpoint accepted under the PEP's name is written as the PEP wrote it.
- `Numbering.SecondLifeRefused`: a delta in which one session key is set up twice is refused, even if the first session
  was deleted in between.
- `Interruption.RefusedExactly`, `Interruption.FailedStaysRefused`, `Interruption.FailedApplyForgotten`: the repository's
  README says that a PEP refuses to start after an interrupted transaction. It refuses exactly if a transaction was begun
  and none was brought to its end on disk since. The periodic cleanup does not look at the health flag, so after a
  failed apply a later cleanup clears the transaction marker; the file is then accepted although its log holds an
  intent nothing followed.
- `CrashConsistency.UnmarkedFilesAreConsistent`, `CrashConsistency.StoredFile`, `CrashConsistency.ReusedSPI`: memory, and
  the file unless it carries a marker, hold what the log leaves open, exactly as long as no activation reuses the
  SPI or the key of another live session. `Numbering.NumberedIsFresh` says when the allocator rules that out.
- `Allocator.ReqIDsAreFresh`, `Allocator.WrappedReqIDCollides`: allocated numbers are distinct over fewer than 2^32
  allocations, but a restored session's number comes back after 2^32 less its distance from the largest.
- `Allocator.InnerIPsAreFresh`, `Allocator.WrappedAddressCollides`: so does a restored session's address.
- `Numbering.ReissuedExactly`, `Numbering.RestartReissues`: a new process counts from the sessions still in the table, so
  numbers of deleted ones are handed out again: exactly until the counter is back at the largest ever handed out.
- `HonestEvents.ObserversAgree`: the PEP compares the XFRM mode as configured, the Verifier after trimming and lower-casing.
  Under the dry-run profile the two disagree exactly for a mode such as `APPLY`.
- `ActivationExpiry.ActivationExpiryDecides`, `ActivationExpiry.NoCapOnTrackedExpiry`: the expiry the Verifier tracks is the
  activation's own; only the intent's is held against the lifetime cap. Whatever the cap, the holder of the PEP's key can
  submit any activation expiry that is readable and later than the checkpoint.
- `SessionKeys.SessionKeyIdentifies`, `SessionKeys.CompleteKeyCollides`: session keys are seven fields joined with bars.
  An event's key is its own exactly if no field of it contains one; against complete events, which alone get as far
  as being looked up, exactly if no bar can be moved without emptying a field.
- `Verifier.ResendReplays`: a resent request gets its token back exactly if tokens are issued for a positive time.
- `ReplayCache.SecondAcceptancePossible`: a packet can be accepted a second time exactly if its timestamp was ahead of the
  PDP's clock at the first.
- `Lifetime.SlowActivationOutlivesToken`: a second or more between bounding the lifetime and creating the session lets
  the session outlive its token.
- `KernelRuns.KernelIsTable`: a session whose deletion was carried out but not observed stays in the PEP's table.
- `Xfrm.FailedApplyResidue`: a failed apply is not rolled back; it leaves nothing behind exactly if its first SA was
  already there.
- `Spa.SpaRoundTrip`: building does not limit the payload; a packet opens only if the payload is at most 1096 bytes.

## Model

| member | source | states |
|---|---|---|
| Attest.VerifyHistoryEvidence | common/attest/attest.go:308-385 | accepts exactly the signed deltas that continue the previous checkpoint: identity, links, versions, indices, hashes, epoch, times; a chain error names the first event that breaks the chain |
| Attest.ValidExactly | common/attest/attest.go:308-385 | a delta is valid exactly if its checkpoint names this PEP and the checkpoint before, its events are in order after that one, the new checkpoint sums them up under the next epoch, and it is signed |
| Attest.LastHashDeterminesEvents | common/attest/attest.go:238-253 | two chains from one base with equal last hash and length are the same events up to empty-versus-missing metadata |
| Attest.AcceptedDeltaDetermined | common/attest/attest.go:308-385 | two evidences accepted after one checkpoint with equal last hash and index contain the same events |
| Attest.CheckpointDeterminesHistory | common/attest/attest.go:255-267 | two accepted histories ending in one checkpoint hash agree on every checkpoint and event since genesis |
| Attest.RunEpoch | common/attest/attest.go:356-362 | the epoch of the latest checkpoint is the number of deltas accepted |
| Tokens.BindingDeterminesTunnel | common/attest/attest.go:158-218 | two tunnels a client accepts under one binding agree in every parameter but the endpoint they were handed out with, and in token and keys |
| Tunnels.TokenAcceptedExactly | common/attest/attest.go:56-91 | a token passes exactly if it is of the known kind, signed by the Verifier, issued no more than five seconds ahead and not expired |
| Tunnels.TunnelAcceptedExactly | common/attest/attest.go:158-218 | a client accepts a tunnel exactly if the token is good, covers the service and outlives the SA, and the binding is signed by the token's PEP and says field by field what the tunnel says |
| Tunnels.AcceptedTunnelIsAuthorised | common/attest/attest.go:158-218 | if only key holders sign, behind every accepted tunnel there is a binding the PEP signed with these parameters and keys, and a token the Verifier handed out for a checkpoint it committed, in every run of the Verifier |
| Lifetime.BoundLifetime | pep/attestation.go:294-310 | a positive result is the largest lifetime within the request, the token's maximum and its remaining validity; failure means there is none, or an unreadable expiry |
| Lifetime.HonestTunnelVerdict | common/attest/attest.go:158-218 | the client's verdict on an honest activation relayed unchanged: token validity, scope, and whether the session's clock reading was in time |
| Lifetime.HonestTunnelAccepted | pep/attestation.go:294-335 | with less than a second between the two clock readings, 0 < lifetime <= maximum, the SA never outlives the token, and the client accepts while the token is valid and in scope |
| Lifetime.SlowActivationOutlivesToken | pep/main.go:160-168 | one second is the limit: a case in which the SA outlives its token |
| Text.SameStringsUnordered | verifier/main.go:643-664 | true exactly when the trimmed lists are equal as multisets, for lists of any length |
| Text.Uncount | verifier/main.go:651-657 | the downward pass: its early exit is taken only if the lists differ |
| Text.AllZero | verifier/main.go:658-662 | the final scan finds a non-zero count exactly if there is one |
| History.EnforcementHistory.AppendEvent | pep/history.go:110-157 | appends one event: next index, linked to the last hash, session facts over metadata, hashed canonically |
| History.EnforcementHistory.BuildEvidence | pep/history.go:159-193 | the delta since the accepted index under the next epoch, signed; changes nothing |
| History.EnforcementHistory.MarkCheckpointAccepted | pep/history.go:195-214 | adopts a checkpoint exactly if it is not ahead of the log |
| History.EnforcementHistory.Snapshot | pep/history.go:62-74 | all of the state |
| History.EnforcementHistory.Restore | pep/history.go:76-108 | accepts exactly this PEP's snapshots that satisfy the chain invariant, and otherwise changes nothing |
| History.SnapshotRoundTrip | pep/history.go:62-108 | restoring the snapshot of any well-formed history succeeds and reproduces it |
| History.EventLinks | pep/history.go:110-157 | event i has index i + 1 and carries the hash of event i - 1 |
| History.BuiltEvidenceIsValid | pep/history.go:159-193 | what is built is accepted by the evidence check against the checkpoint last marked |
| History.ReachableHistory | pep/history.go:110-214 | over every history reached by appending, building and marking any checkpoint built: chain invariant, and the next evidence is valid |
| Policy.StepSession | verifier/main.go:293-392 | the branch for one session event computes the lifecycle step of its key and reports its error |
| Policy.VerifyEnforcementPolicy | verifier/main.go:266-415 | accepts exactly the deltas that replay, leave no transaction open and no session expired at the checkpoint's time, and returns the sessions then active |
| AcceptedEvents.AcceptedDeltaKeepsLimits | verifier/main.go:266-415 | in every accepted delta each session event is complete and in scope, no session is set up for longer than asked for and a second, each operation was seen to succeed as the profile demands, and none is expired before its time |
| AcceptedEvents.IntentExactly | verifier/main.go:294-311 | an intent is taken exactly for a key of which nothing is known, complete, in scope, with a usable plan hash and within the cap |
| AcceptedEvents.ObservationExactly | verifier/main.go:312-323 | an observation exactly after its intent, under its plan, seen to succeed under the profile |
| AcceptedEvents.ActivationExactly | verifier/main.go:324-346 | an activation exactly after its observation and with an expiry, and what is then remembered |
| AcceptedEvents.ExpirationExactly | verifier/main.go:347-358 | an expiration exactly with the remembered expiry, and once its timestamp has reached it |
| AcceptedEvents.DeleteIntentExactly | verifier/main.go:359-377 | a delete intent exactly after expiration, under the remembered plan |
| AcceptedEvents.DeletionExactly | verifier/main.go:378-392 | a deletion exactly after its intent, under its plan, seen to succeed; the session is forgotten |
| AcceptedEvents.DeltaExactly | verifier/main.go:394-413 | a delta exactly if its events are taken in order, no transaction is left open and every active session outlives the checkpoint |
| AcceptedEvents.KeySpelledOut | verifier/main.go:424-426 | the key is the seven fields in this order with bars between |
| Policy.StagesSettled | verifier/main.go:394-399 | no transaction is open |
| Policy.SessionsUnexpired | verifier/main.go:401-413 | every active session outlives the checkpoint |
| Lifecycle.KeyAccepts | verifier/main.go:293-392 | one key's machine comes to rest exactly on intent, observed, activated, (expired+ delete-intent)+, delete-observed, from either end of an open session |
| Lifecycle.AppraisalIsGrammar | verifier/main.go:266-415 | a delta is accepted exactly if its events are admitted, every key's projection is such a word with one plan hash and one expiry, and what stays active is unexpired |
| Lifecycle.AcceptedHistoriesAreLives | verifier/main.go:266-415 | across all accepted deltas each key has lived complete lives, the last open exactly if the key is active |
| ActivationExpiry.RewrittenIsValid | common/attest/attest.go:327-385 | an accepted delta with another activation expiry, chained anew from there and signed anew, passes the chain check |
| ActivationExpiry.ActivationExpiryDecides | verifier/main.go:324-346 | such a request is accepted, by chain check and policy check, exactly if the new expiry is readable and later than the checkpoint; it is then the one tracked |
| ActivationExpiry.NoCapOnTrackedExpiry | verifier/main.go:294-346 | whatever the cap, any time after the checkpoint can so become the tracked expiry |
| SessionKeys.SessionKeyIdentifies | verifier/main.go:424-426 | all events with this event's key have its fields, exactly if none of its fields contains a bar |
| SessionKeys.BarredKeyCollides | verifier/main.go:424-426 | to every event with a bar, another one with the same key, of whatever form |
| SessionKeys.CompleteKeyCollides | verifier/main.go:417-426 | a complete event shares its key with another complete one exactly if a bar of its first five fields has something before it, or one of the second to sixth something after it |
| Verifier.AcceptedCheckpointRetry | verifier/main.go:232-252 | recognises exactly the resent request whose checkpoint and token are the stored ones |
| Verifier.CapacityServer.constructor | verifier/main.go:539-566 | a server starts from its state file |
| Verifier.CapacityServer.BeginCapacity | verifier/main.go:100-148 | screening, replay of a stored token, and the copies taken under the lock |
| Verifier.CapacityServer.FinishCapacity | verifier/main.go:150-228 | appraisal, token, and the compare-and-swap that commits checkpoint, sessions and token to disk before memory |
| Verifier.CapacityServer.HandleCapacity | verifier/main.go:89-230 | one request on its own is the atomic verifier |
| HandlerDecisions.ScreenedExactly | verifier/main.go:100-135 | who passes the screening, with the lifetime cut down to the cap, and with which status the others are turned away |
| HandlerDecisions.BeginExactly | verifier/main.go:100-148 | the stored token is the answer exactly to the same checkpoint resent on the same terms; anything else screened goes on |
| HandlerDecisions.FinishExactly | verifier/main.go:150-228 | the five outcomes of the second section in their order, with token and stored state field by field |
| Verifier.FinishKeepsBinding | verifier/main.go:203-219 | after any second section every stored token binds its PEP's stored checkpoint hash and epoch |
| Verifier.FreshTokenVerifies | verifier/main.go:163-186 | a new token verifies at its own issue time exactly if its lifetime is positive |
| Verifier.ResendReplays | verifier/main.go:137-146 | resending an accepted request before the next commit changes nothing and returns the stored token exactly if the token lifetime is positive |
| VerifierRuns.Linearizable | verifier/main.go:89-230 | after any interleaving of critical sections, failed writes and restarts: memory equals disk equals an atomic verifier handling the committing requests one by one, flights carry current copies, tokens bind checkpoints, every PEP's entry is its own commits' outcome |
| VerifierRuns.CommitIsAtomic | verifier/main.go:187-219 | a commit does what the whole request, handled at that moment, would have done |
| VerifierRuns.CommitKeepsFlights | verifier/main.go:187-200 | strictly increasing epochs rule out that a flight's copy is stale while its checkpoint looks current |
| VerifierRuns.GrantedIsDurable | verifier/main.go:208-228 | a token reaches a client only when it and its checkpoint are on disk, and is the atomic verifier's answer |
| VerifierRuns.ServerLives | verifier/main.go:266-415 | whatever was submitted by anyone in any run, each key of each PEP has lived only complete lives |
| Grants.GrantedTokensAreAuthorised | verifier/main.go:100-186 | every token ever handed out was issued for a committed checkpoint of that PEP, for the configured time from the clock of that commit, and grants an enrolled PEP what it asked for and no more than the configuration allows |
| Pep.ValidateCapacityToken | pep/attestation.go:242-269 | accepts exactly the tokens for this evidence, key, measurement, policy, scope, lifetime and profile |
| Pep.EnforcementPoint.LoadPEPState | pep/state.go:34-69 | adopts exactly the unmarked files of the known version with an intact history |
| Pep.EnforcementPoint.PersistPEPState | pep/state.go:130-165 | writes all of the state or nothing |
| Pep.EnforcementPoint.SetPendingPEPOperation | pep/state.go:71-97 | sets or clears the marker on disk, undoing it in memory when the write fails |
| Pep.EnforcementPoint.SetPendingCapacityEvidence | pep/state.go:110-128 | the same for pending evidence |
| Pep.EnforcementPoint.Activate | pep/main.go:216-258 | the apply transaction: marker, intent, observation, table, activation, marker cleared, stopping at the first failure |
| Pep.EnforcementPoint.Delete | pep/main.go:400-424 | the delete transaction of one session |
| PepDecisions.RestartSpelledOut | pep/state.go:34-69 | a new process stays down on a file it does not adopt, and otherwise takes over what the file holds and logs its start |
| PepDecisions.ApplySpelledOut | pep/main.go:216-258 | what an apply transaction leaves in memory, log and file wherever it stops, and that it succeeds exactly if both writes and the plan do and the observation convinces |
| PepDecisions.DeleteSpelledOut | pep/main.go:400-424 | the same of a delete transaction |
| PepDecisions.PrepareSpelledOut | pep/attestation.go:171-211 | what is pending is asked for again; otherwise the checkpoint signed, and that it is pending exactly if it could be written |
| PepDecisions.AcceptSpelledOut | pep/attestation.go:224-239 | what taking a token changes, and that a token not good for what is pending changes nothing |
| PepDecisions.ProfileExactly | pep/main.go:429-456 | which observer reports the PEP takes for success |
| Pep.EnforcementPoint.CollectExpired | pep/main.go:373-388 | exactly the sessions lapsed at the given time |
| Pep.EnforcementPoint.CleanupExpired | pep/main.go:372-427 | deletes lapsed sessions one by one; if it succeeds, all of them |
| Pep.EnforcementPoint.PrepareCapacityRequest | pep/attestation.go:171-211 | sends the pending evidence, or new evidence once it is durable |
| Pep.EnforcementPoint.AcceptCapacityToken | pep/attestation.go:224-239 | a valid token marks the checkpoint accepted, logs it and closes the exchange on disk |
| Pep.EnforcementPoint.EnsureCapacityToken | pep/attestation.go:153-240 | an unhealthy PEP or a token fresh enough changes nothing; otherwise cleanup, request and acceptance in that order, stopping at the first failure, and a token handed out was valid for the evidence sent, whose checkpoint is then the accepted one in memory and on disk |
| Authority.AcceptedRunIsChain | common/attest/attest.go:330-355 | accepted deltas join up to one chain from genesis that the latest checkpoint summarises |
| Authority.RunKeepsInvariant | pep/attestation.go:171-239 | in every run of both parties a PEP state, in memory or on disk, is level with the Verifier, or one pending evidence ahead or behind |
| Authority.AuthorityAgreement | pep/attestation.go:171-239 | in every run the Verifier's checkpoint is the PEP's last accepted one or that of its pending evidence, and no two evidences of one epoch are sent |
| Authority.EventsAreConserved | pep/history.go:166-191 | in every run the accepted deltas joined up are exactly the prefix of the PEP's log up to the Verifier's index, and the Verifier's active sessions, with their plan hashes, are what this prefix leaves open |
| OpenSessions.ReplayKeepsOpen | verifier/main.go:284-392 | an accepted replay moves the active map as reading intents, activations and deletions off the log does |
| OpenNetwork.AcceptedWasSent | common/attest/attest.go:320-355 | a delta accepted under a checkpoint the PEP signed contains the events the PEP sent with it |
| SealedRuns.RunTraceable | pep/attestation.go:171-211 | in every run what is pending sums up a prefix of the log and follows the accepted checkpoint, or is it |
| Impostors.ImpostorsChangeNothing | verifier/main.go:89-252 | whatever anyone submits under the PEP's name or sends it as a token: as long as every accepted checkpoint is written as the PEP sent it, a run in which only its own histories are delivered, one at a time, has the same PEP, Verifier state, tokens and accepted events; from the first that is not, one in which that checkpoint is still to be accepted has the same PEP |
| SignatureText.AuthorityAgainstImpostors | common/attest/attest.go:308-385 | in every such run the Verifier's checkpoint is the PEP's but for the text of its signature, and what it accepted and what it tracks are a prefix of the PEP's log and what that leaves open |
| SignatureText.AgreementIsExact | verifier/main.go:187-235 | the two agree on the checkpoint, text included, exactly if every checkpoint accepted was written as the PEP sent it |
| SignatureText.ShutOutForGood | verifier/main.go:187-235 | once one was not, at every later point of every run the PEP's requests are refused, and no token that can reach it is good for what it has pending |
| SignatureText.CopyPartsThem | common/attest/attest.go:283-303 | whenever a request of the PEP would be accepted, its copy with a line break after the signature is accepted in its place if it comes first |
| SignatureText.HonestRunsCanBeParted | common/attest/attest.go:283-303 | that can happen to an honest PEP whenever it has evidence on the way |
| SessionTable.ActivationKeepsTable | pep/main.go:246-250 | storing a session keeps table and log together exactly if its SPI and key are not another's |
| SessionTable.DeletionKeepsTable | pep/main.go:417-419 | deleting one session takes out that one |
| CrashConsistency.UnmarkedFilesAreConsistent | pep/state.go:130-165 | whatever fails, at every point of a run memory, and the file unless it carries a marker, hold exactly the sessions their own log leaves open, if and only if no activation of the run took the SPI or the key of another live session |
| CrashConsistency.StoredFile | pep/main.go:246-257 | of the file alone: the one written when a session is stored is in order exactly if the session's SPI and key were not another's; if the write fails the file is the old one |
| CrashConsistency.ReusedSPI | pep/main.go:246-257 | a run whose file has no marker and has lost a session its log leaves open |
| Interruption.RefusedExactly | pep/state.go:34-69 | after every run the next process refuses to start exactly if a transaction was begun and none was brought to its end on disk since |
| Interruption.CrashInsideIsRefused | pep/state.go:54-56 | a crash anywhere inside a transaction leaves a file the next process refuses |
| Interruption.FailedStaysRefused | pep/state.go:71-97 | after a failed transaction every later file is refused exactly if no later transaction is brought to its end |
| Interruption.FailedApplyForgotten | pep/main.go:358-427 | a run from an empty machine in which a cleanup after a failed apply clears the marker, and the file is accepted with an intent nothing followed |
| Interruption.RunIntact | pep/history.go:76-108 | in every run the history in memory and on disk satisfies the chain invariant |
| Transactions.ApplyIsRun | pep/main.go:216-258 | the apply transaction is a run of the process's steps, wherever it stops |
| Transactions.DeleteIsRun | pep/main.go:400-424 | so is the delete transaction of a lapsed session |
| Transactions.CleanupIsRun | pep/main.go:372-427 | so is a cleanup |
| Transactions.ExchangeIsRun | pep/attestation.go:153-240 | so is a capacity exchange, whose last step accepts the Verifier's answer |
| Transactions.ExchangeContinuesRun | pep/attestation.go:153-240 | after any run, whatever the exchange of a process at rest deletes and asks is more of the run |
| Transactions.ActivateKeepsFiles | pep/main.go:216-258 | an activation under an SPI and a key of its own keeps table, log, memory and file together |
| Transactions.ExchangeKeepsFiles | pep/attestation.go:153-240 | so does a capacity exchange |
| Transactions.ExchangeInWorld | pep/attestation.go:153-240 | after a whole exchange, with the network and the Verifier in between, the two parties agree and no event is lost |
| DeltaReplay.DeltaReplays | verifier/main.go:266-415 | a log that replays whole and is cut where no transaction is open replays from the cut, to the same sessions |
| HonestEvents.ObserversAgree | pep/main.go:429-456 | every observation the PEP accepts the Verifier accepts, exactly unless dry runs are configured under a mode only the Verifier reads as apply |
| HonestEvents.ProfilesCoincide | verifier/main.go:435-479 | on normalised reports the PEP's and the Verifier's observer checks are the same, under every profile |
| HonestEvents.CreatedSessionFits | verifier/main.go:481-498 | a session whose expiry was read off the clock within the cap passes the Verifier's lifetime check |
| HonestEvents.IntentAccepted | verifier/main.go:294-311 | the Verifier takes an honest apply intent for a key that is new |
| HonestEvents.ApplyObservedAccepted | verifier/main.go:312-323 | and its observation |
| HonestEvents.ActivationAccepted | verifier/main.go:324-346 | and its activation, then tracking the session as the PEP has it |
| HonestEvents.ExpirationAccepted | verifier/main.go:347-358 | and its expiration, once the clock has reached the expiry |
| HonestEvents.DeleteIntentAccepted | verifier/main.go:359-377 | and its delete intent |
| HonestEvents.DeleteObservedAccepted | verifier/main.go:378-392 | and its deletion |
| HonestRuns.PepStepSound | pep/main.go:216-258 | every honest step keeps the whole log acceptable and the active sessions those of the table, in memory and on disk |
| Completeness.BuiltIsAcceptable | pep/attestation.go:184-205 | evidence built between transactions passes both checks against what the Verifier stores exactly if no session has lapsed by the checkpoint's time |
| Completeness.HonestEvidenceIsAccepted | verifier/main.go:150-228 | in every run with an honest PEP, every evidence ahead of the Verifier's checkpoint passes both checks and, once screened, is granted; and one already committed is answered again with the stored token, if tokens are issued for a positive time |
| Allocator.PoolIsExact | pep/main.go:311-330 | exactly the offsets 1 to size - 2 of a prefix with two host bits name an address, strictly between network and broadcast, without wrapping, from which the offset is read back |
| Allocator.AddressHasOffset | pep/main.go:332-344 | every such address has an offset that gives it back |
| Allocator.Allocators.constructor | pep/main.go:275-300 | both counters start at the largest of the base and the restored sessions' numbers |
| Allocator.Allocators.AllocateReqID | pep/main.go:302-304 | the counter after a 32-bit increment |
| Allocator.Allocators.AllocateClientInnerIP | pep/main.go:306-309 | the address at the incremented offset, or an error, the counter moving either way |
| Allocator.IssuedReturns | pep/main.go:302-309 | a number below the start is handed out again exactly once in every 2^32 allocations, first after 2^32 less its distance |
| Allocator.ReqIDsAreFresh | pep/main.go:275-304 | no reqid repeats within 2^32 allocations; a restored one returns exactly when the counter has come round |
| Allocator.InnerIPsAreFresh | pep/main.go:275-344 | addresses handed out are equal exactly if the counter came round between them; a restored session's returns exactly if it lies in the pool and the counter has come round to it |
| Allocator.WrappedReqIDCollides | pep/main.go:275-304 | a case in which the second allocation hands out a restored session's reqid |
| Allocator.WrappedAddressCollides | pep/main.go:275-344 | a case in which a restored session's address is handed out |
| Numbering.KeyIsNew | verifier/main.go:424-426 | the key of a session without bars is new to a log exactly if no session event of it has the same seven fields |
| Numbering.NumberedKeyIsNew | pep/main.go:302-304 | so it is if the numbers of all these events were restored or are of other allocations of this process, the counter not having come round |
| Numbering.ReissuedExactly | pep/main.go:275-304 | over every run of allocations, deletions and restarts before the counter comes round, the next number was handed out before exactly if the largest ever handed out is above the counter; it is never that of a session in the table |
| Numbering.RestartReissues | pep/main.go:275-304 | a run in which the number of a deleted session is handed out again |
| Numbering.SecondLifeRefused | verifier/main.go:294-311 | a delta with two intents for one key is refused |
| Numbering.NumberedIsFresh | pep/main.go:302-304 | a session numbered before the counter comes round shares neither key nor SPI with a session of the table |
| Numbering.AddressedIsDistinct | pep/main.go:306-309 | a session addressed before the counter comes round has kernel selectors of its own |
| KernelRuns.KernelFollowsTable | pep/main.go:216-258 | over every run of process, allocators and kernel, with restarts, in which sessions have SAs of their own: at rest the kernel holds exactly the objects of the sessions in the table less those deleted but not observed to be, no plan fails to apply, and a file that would be loaded lists the same |
| KernelRuns.KernelIsTable | pep/main.go:400-424 | at rest the kernel holds the objects of the whole table exactly if every deletion carried out was observed |
| Observer.XfrmObserver.ReadEvent | pep/xfrm_observer.go:263-271 | appends and trims; the window never exceeds 4096 events |
| Observer.XfrmObserver.Count | pep/xfrm_observer.go:348-360 | the matching events and their probes, in order |
| Observer.XfrmObserver.Annotate | pep/xfrm_observer.go:333-393 | the report as a function of the mode and of the events since the mark |
| Observer.SinceMarkIsTail | pep/xfrm_observer.go:302-314 | what is read since a mark is a tail of the events appended after it, and all of them exactly if the window had room |
| Observer.MatchedMeansObserved | pep/xfrm_observer.go:345-376 | a match is reported exactly if enough kept events match, and then at least as many really followed the mark |
| Observer.AcceptedOperationWasSeen | pep/main.go:436-456 | under the hybrid and eBPF profiles the PEP takes no operation for successful unless enough matching kernel events followed its start |
| Xfrm.ApplyAdds | pep/xfrm.go:39-56 | applying a plan succeeds exactly if its objects are free, and adds its two states and two policies and nothing else |
| Xfrm.InstalledSpelledOut | common/ipsecutil/ipsecutil.go:85-112 | the two SAs and two policies an applied plan leaves, field by field |
| Xfrm.FailedApplyResidue | pep/xfrm.go:39-56 | a failed apply leaves the table as it was exactly if its first SA was taken |
| Xfrm.DeleteRemoves | pep/xfrm.go:58-77 | deleting removes what stands under the four keys and nothing else |
| Xfrm.DeleteUndoesApply | common/ipsecutil/ipsecutil.go:85-112 | deleting undoes a successful apply |
| Xfrm.DeletionSparesOthers | common/ipsecutil/ipsecutil.go:107-112 | deleting one session leaves another's objects alone exactly if they share none |
| Xfrm.KernelIsConserved | pep/main.go:228-247 | over every run with SAs and selectors of their own, the table holds exactly the objects of the live sessions |
| Xfrm.PeersAgree | common/ipsecutil/ipsecutil.go:71-176 | both ends' plans succeed together, install the same two SAs, and their selectors meet in either direction |
| Xfrm.ClientDeleteUndoes | common/ipsecutil/ipsecutil.go:121-171 | the client's deletion undoes its apply |
| Spa.TimestampRoundTrip | common/noiseutil/noiseutil.go:147-149 | a signed 64-bit millisecond timestamp survives its big-endian encoding |
| Spa.SymmetricState.MixHash | common/noiseutil/noiseutil.go:316-321 | the hash chained with the data |
| Spa.SymmetricState.MixKey | common/noiseutil/noiseutil.go:323-329 | chaining key and cipher key from HKDF, counter reset |
| Spa.SymmetricState.MixKeyAndHash | common/noiseutil/noiseutil.go:331-338 | the same with the middle output hashed in |
| Spa.SymmetricState.EncryptAndHash | common/noiseutil/noiseutil.go:340-350 | seals under the running hash, then hashes the ciphertext; a failure changes nothing |
| Spa.SymmetricState.DecryptAndHash | common/noiseutil/noiseutil.go:352-362 | opens under the running hash, then hashes the ciphertext; a failure changes nothing |
| Spa.SymmetricState.Split | common/noiseutil/noiseutil.go:364-367 | the two transport keys |
| Spa.BuildIKpsk1SPA | common/noiseutil/noiseutil.go:105-189 | the packet, its hash, the response key and the timestamp of the schedule e, es, s, ss, psk |
| Spa.OpenIKpsk1SPAHeader | common/noiseutil/noiseutil.go:191-245 | the header of a packet of legal size within the skew, and the state to go on from |
| Spa.CompleteIKpsk1SPA | common/noiseutil/noiseutil.go:247-284 | the payload and the response key under a PSK |
| Spa.OpenIKpsk1SPA | common/noiseutil/noiseutil.go:286-292 | the two in sequence |
| Spa.SpaRoundTrip | common/noiseutil/noiseutil.go:105-292 | a built packet opens to its payload, timestamp and client key with the same response key exactly if the payload is at most 1096 bytes and the clock within the skew |
| SpaSchedule.BuildSpelledOut | common/noiseutil/noiseutil.go:105-189 | a packet's three parts and the response key, with every key and all associated data as HMACs and hashes of ephemeral key, es, ss and PSK |
| SpaSchedule.OpenSpelledOut | common/noiseutil/noiseutil.go:191-292 | any packet opens exactly if its size is legal, its header opens to a stamp within the skew and a client's key, and its payload opens, under the keys of the PDP's own secrets |
| SpaSchedule.OpensExactly | common/noiseutil/noiseutil.go:331-338 | a built packet opens exactly for a PDP with the same three secrets, PSK included, unless HMAC calls of the two schedules collide or a ciphertext opens under another key |
| SpaSchedule.MostSignificantFirst | common/noiseutil/noiseutil.go:147-149 | the first byte of a stamp weighs most |
| Spa.ResponseRoundTrip | common/noiseutil/noiseutil.go:294-300 | what the PDP seals under its response key the client opens under its own |
| ReplayCache.Cache.Seen | pdp/main.go:34-44 | purges what has run out and finds the hash exactly if it is still held |
| ReplayCache.Cache.Add | pdp/main.go:46-50 | holds the hash for the cache's lifetime |
| ReplayCache.Cache.Handle | pdp/main.go:110-147 | the accept path: unseen, within the window, sender known, payload opens |
| ReplayCache.CacheAgrees | pdp/main.go:34-50 | under a clock that does not go back the purged map says of every hash what the log of all acceptances says, and acceptances of one packet lie more than the cache's lifetime apart |
| ReplayCache.AcceptedExactly | pdp/main.go:110-147 | after any ordered run a packet is accepted exactly if it is genuine, within ten seconds of its stamp, and not accepted in the last ten seconds |
| ReplayCache.ReplayBound | pdp/main.go:118-147 | no packet is accepted more than twice, and only once if its timestamp was not ahead of the clock at the first |
| ReplayCache.AcceptedTwice | pdp/main.go:118-147 | when both copies of a packet are accepted |
| ReplayCache.SecondAcceptancePossible | common/noiseutil/noiseutil.go:227-231 | a second acceptance is possible exactly if the timestamp is ahead of the clock at the first |

## Left out

- HTTP, UDP, JSON and file plumbing, environment parsing, logging and metrics: requests, responses and files arrive as records, and every decoding error is one error.
- Cryptography itself: the functions are abstract and the hypotheses named above are required where used; that signatures cannot be forged is one of them.
- Clients without attestation (the baseline mode): the model takes attestation to be enabled.
- The posthoc inspection of kernel state, the parsing of `ip` output, the bpftrace process and the polling with a timeout: what the observer found is a parameter; one reading of the window stands for the last poll.
- KernelRuns.KernelFollowsTable: the mode is apply; a plan and its observation are one step, a crash between the two leaving a marked file, and foreign failures of a command are not modelled.
- validateRestoredSessions: the comparison of restored sessions with the kernel at start-up is not part of this model.
- Addresses, SPIs and XFRM commands as text: a command is the operation it denotes, SPIs are compared as numbers through an abstract reading, addresses as they are written.
- The address and route commands of the client plan: only its XFRM commands are modelled.
- Health flag: its effect on handlers that were already waiting for the lock is not modelled; a PEP step may happen after a failed one, which covers what such handlers can do to state, log and marker.
- Text.ToLower: maps ASCII letters only.
- Lifetime.BoundLifetime: durations are exact integers where the code goes through floating-point seconds.
- Spa.OpenIKpsk1SPAHeader: time differences do not saturate at the range of a 64-bit duration; errors of base64 decoding and of key length are one error.
- Pep.EnforcementPoint.CleanupExpired: the order in which a table is walked is any order; kernel deletion, which the code never reports as failed, may fail.
- Epochs, event indices and nonces are unbounded numbers and do not wrap.
- ReplayCache.Cache.Handle: packets are handled one after the other; between the code's look-up and its insertion other packets of the same hash could be looked up.
- Completeness.HonestEvidenceIsAccepted: runs in which a kernel operation or observation fails, a session key is used again (in another delta; within one it is refused), or someone else's request under the PEP's name is served are not covered; that a committed evidence is answered again says nothing of the PEP still accepting a token that has expired meanwhile, and the code does not renew it.
- Sharing of metadata maps between an event and the caller that supplied them: maps are values.
- The choice among several errors that depends on Go's map order: the Verifier's final scans report one error for any offender.
