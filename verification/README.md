# A Dafny model of the gateway's stateful cores

This project models the parts of an AI API gateway whose correctness depends on order, state and
recovery, and proves what they promise. `dafny verify dfyconfig.toml` checks everything.

**Managed-context outcomes** (`outcome_*.dfy`, `managed_*.dfy`, `content_types.dfy`). A request with an idempotency key runs
one main upstream call into a buffer, settles its bill together with a durable checkpoint, runs and settles
one summary call, stores the next conversation revision, marks the outcome committed and only then answers.
`OutcomeProtocol` is the transition system: durable state is one slot per revision (outcome row, two billing
operations) and the fenced conversation record; volatile state is one process per request. Every action is
one atomic effect; any action may come next, and one that is not enabled changes nothing. So a sequence of
actions is a run with any number of requests and retries, crashes at every point, lost replies, lost leases
and timeouts. `OutcomeInvariant` proves each effect keeps what one process can see, `OutcomeSafety` lifts
that to all processes, `OutcomeTheorems` states safety over runs, `OutcomeFencing` what leases and tokens
guarantee, `OutcomeCleanUp` what a failed request gives back, `OutcomeProvenance` which actions of the run the
stored states, snapshots and answers come from, `OutcomeRecovery` and `OutcomeRetry` what a retry reaches.
`ManagedRelay` is the request path as ordered effects with early returns; every effect after the
reservation goes through `Gateway.Perform`, and every clean-up effect, which may fail or come late,
through `Gateway.TryToGiveBack`, so its methods are runs of the protocol. `ManagedRuns` says what each method
makes of what its request sees when nothing is in the way, and that an undisturbed request delivers.
`ResponseBuffer` is the held-back answer.

**Rate limiter, pricing comparison, price selection, upstream reconciliation, multi-key table, JSON name
validator, Ogg scan, body stores and their counters, candidate search, Redis hash** each have a module of
their own: the loops and classes of the source, proved against a specification whose meaning is then proved.

Go's integers and floats are mathematical integers and reals, except where the model says 64 bits
(`Decimal`, `BodyStore.Wrapped`, `OggScan.Signed64`, `OutcomeProtocol.DoStart`). Bodies and keys are sequences
of characters or numbers. Clocks, upstream answers, failures, regular-expression matching and JSON array
parsing are parameters.

## What turned out false

Each of these is stated in the model as an exact condition or a concrete input.

- A summary operation that is refunded before the summary is dispatched (for example after a failed mark)
  leaves the outcome in MainSettled with no way forward: `OutcomeRetry.CompletionIff` says an outcome can
  still be committed exactly when neither operation is refunded, and `OutcomeRetry.RefundTrapsOutcome`
  reaches such a state from a fresh one.
- A crash between storing the next revision and marking the outcome is healed exactly when no later revision
  has been stored in the meantime (`OutcomeRetry.HealIff`); `OutcomeOvertaken.OvertakenIsReachable` gives a run
  after which no retry can answer any more.
- The rate limiter is exact in every run only for windows of at most the sweeper's expiry plus one second
  (`RateLimit.ExactIffWindowFitsExpiry`); a limit of zero lets one request through per window.
- A price difference whose upstream value is null or literally `same` can be lost (`PricingDiff.DifferenceLostIff`).
- Applying an added model name that holds a comma gains its pieces, which never were pending; the models change
  as selected exactly when no name that is new to the channel holds a comma
  (`UpstreamModels.ApplyStaysWithinPendingIff`).
- Re-detection after a partial apply agrees with the stored lists exactly when no added name holds a comma and
  the ignore list works as selected (`UpstreamModels.RedetectIff`). For names that match nothing on offer when
  read as patterns, the second part says that no merely ignored name starts with `regex:`
  (`UpstreamModels.RedetectPlainIff`); a name that works as a pattern can uncover what it hid
  (`UpstreamModels.PatternNameMisfires`).
- Deleting the auto-disabled keys when every key is auto-disabled deletes nothing and enables them all,
  because an empty key field is not written (`MultiKey.RewriteIff`). Removing a key can expose an empty
  neighbour to trimming, which shifts the indexes (`MultiKey.RemovalExposesEmptyKey`); keys that are plain stay
  one table over every run (`MultiKey.Channel.PerformAll`).
- Enabling one key from outside does nothing while the channel as a whole is enabled
  (`MultiKey.EnableTakesEffectIff`).
- A reader over a cache file reports an error after its own `Close`, one over memory does not
  (`BodyStore.IndistinguishableIff`); a body limit of the largest 64-bit integer wraps around and makes any
  body read as empty (`BodyStore.DeliversWhatFitsIff`).
- A record of the Redis hash loses a pointer to an empty text, a set deletion mark and the content of any
  struct (`RedisHash.RoundTripIff`).

## Model

| member | source | states |
|---|---|---|
| OutcomeInvariant.ActKeepsView | controller/context_consensus_managed_commit.go:75-275 | every effect a request can have keeps the invariant of its slot, the conversation and itself, and changes a slot only in ways other requests tolerate |
| OutcomeInvariant.SettleMainKeeps | model/billing_operation.go:286-417 | settling the main operation and applying its checkpoint are one step: the operation is settled if and only if the outcome has reached MainSettled, where the answer and the snapshot are stored |
| OutcomeInvariant.SwapKeeps | service/contextconsensus/managed_redis_repository.go:46-64 | the fenced compare-and-set stores only the next state this outcome settled, on top of the revision it expected |
| OutcomeSafety.ActKeepsInv | controller/context_consensus_managed_commit.go:75-275 | the invariant of all slots and all processes survives an effect of any one of them |
| OutcomeSafety.StartKeepsInv | model/managed_context_outcome.go:156-212 | reserving an outcome, also one of another key, another revision or past its expiry, keeps the invariant |
| OutcomeSafety.ExecKeepsInv | controller/context_consensus_outcome_resume.go:16-99 | every run keeps the invariant |
| OutcomeTheorems.AtMostOnce | controller/context_consensus_managed_commit.go:75-92 | in every run each of the two calls is dispatched at most once and charged at most once; a stored answer was charged once, and a charged client's answer is stored with the summary snapshot unless the outcome has been scrubbed; a delivered answer has cost exactly one of each |
| OutcomeTheorems.AnswersAgree | controller/context_consensus_outcome_resume.go:93-98 | first delivery, resume and replay all deliver the same buffered answer, with revision r+1, and that next state is the one stored; what the answer holds is said by OutcomeProvenance.DeliveredIsReturned |
| OutcomeTheorems.NoAnswerBeforeCommit | controller/context_consensus_managed_commit.go:260-274 | a step that delivers bytes finds the outcome already committed and writes nothing durable |
| OutcomeTheorems.EverCommittedMeaning | controller/context_consensus_managed_commit.go:265-268 | "committed" in the other statements means that an earlier state of the run had the phase Committed |
| OutcomeTheorems.PhasesMoveForward | model/managed_context_outcome.go:214-241 | over every run a phase stays or gains rank, an outcome keeps its key, and a refunded operation stays refunded |
| OutcomeTheorems.LogOnlyGrows | service/contextconsensus/managed_redis_repository.go:46-64 | a stored revision is never rewritten |
| OutcomeTheorems.OneNextState | service/contextconsensus/managed_session.go:312-400 | among all requests that compete for a revision at most one next state is ever stored after it, the one settled by the outcome of that revision; what it holds is said by OutcomeProvenance.StoredIsReturned |
| OutcomeProvenance.StoredIsReturned | controller/internal_compaction_executor.go:442-455 | in every run what is stored at revision r+1 is the summary that a summary call for r, an action of the run, returned as valid |
| OutcomeProvenance.DeliveredIsReturned | controller/context_consensus_outcome_resume.go:101-109 | in every run every answer for r has the status and the body of the response that the main call for r returned, a success of at most two mebibytes, names revision r+1, and has one of two content types, decided by the text of the header |
| OutcomeProvenance.CheckpointIsReturned | service/contextconsensus/managed_outcome.go:155-183 | in every run the stored response is the one the main call returned, the stored snapshot the argument of the settlement that charged it, and the stored next state the summary that was returned |
| OutcomeProvenance.CallsHappenOnce | controller/context_consensus_managed_commit.go:75-92 | two main calls, or two summary calls, for one revision are the same action of the run, whoever makes them and whatever comes back |
| OutcomeProvenance.ChargesHappenOnce | model/billing_operation.go:286-417 | two steps that charge one operation are the same step of the run |
| OutcomeProvenance.MainCallEnds | controller/context_consensus_managed_execution.go:33-93 | a main call without a response leads back to the gate, which stops the next attempt; a response is settled exactly if it is a success of at most two mebibytes |
| OutcomeProvenance.SummaryIsBilledIff | controller/internal_compaction_executor.go:434-550 | a summary call is billed exactly when it reports usage and checkpointed exactly when its summary is valid |
| OutcomeProvenance.ReadIff | service/contextconsensus/managed_outcome.go:229-242 | a stored response is read back exactly when it is in range and agrees with the row's status and content type |
| OutcomeProvenance.StartMeans | model/managed_context_outcome.go:156-212 | a request is turned away exactly for the last 64-bit revision, a revision of another key or a key of another revision; otherwise it finds a new outcome or the old one, scrubbed past its expiry, and goes where the phase sends it |
| OutcomeProvenance.OnlyFailedRefunds | model/billing_operation.go:419-462 | an operation is refunded only by a request that has failed and holds it |
| OutcomeProvenance.ReservedIsGivenBack | service/billing_session.go:105-117 | in every run, once a failed request has had its clean-up effects, each operation it reserved at some step is settled or refunded |
| ContentTypes.ContentTypeIff | service/contextconsensus/managed_outcome.go:385-393 | for every header text: problem details exactly when the text before the first semicolon reads so apart from case and outer white space, plain JSON for everything else |
| OutcomeFencing.TokensAreUnique | service/contextconsensus/managed_redis_repository.go:23-31 | in every run no two requests ever hold the same fencing token |
| OutcomeFencing.LeaseIsTakenWhenFree | service/contextconsensus/managed_redis_repository.go:23-31 | the lease changes hands only when it is free, and always with a new and larger token |
| OutcomeFencing.HolderIsCurrent | service/contextconsensus/managed_session.go:71-126 | in every run, while a request that has read its revision under the lease still holds it, the conversation stays at that revision |
| OutcomeFencing.OnlyHolderStores | service/contextconsensus/managed_redis_repository.go:46-64 | a state is only ever stored by the holder of the current lease, on the revision it expects, and it is the state it checkpointed |
| OutcomeFencing.ResolvedWasOwn | service/contextconsensus/managed_session.go:402-460 | a request that resolves an unclear reply as a success stored the state itself, earlier in the run |
| OutcomeFencing.LapsedStaysLapsed | model/managed_context_outcome.go:214-241 | over every run an outcome past its expiry changes only by being scrubbed and is never committed any more |
| OutcomeRecovery.SoloIsExec | controller/context_consensus_outcome_resume.go:16-99 | the undisturbed continuation of one request, seen alone, is the run of the whole system |
| OutcomeRecovery.RetryRun | middleware/context_consensus_policy.go:110-312 | a retry that enters with the same key and acts alone ends where its own view says |
| OutcomeRecovery.SummaryDelivers | controller/context_consensus_outcome_resume.go:37-99 | from MainSettled an undisturbed resume whose calls succeed commits and delivers one answer, unless its operation was refunded |
| OutcomeRetry.RequestDelivers | controller/context_consensus_outcome_resume.go:16-99 | from Intent, MainSettled or SettledPendingCommit an undisturbed request whose calls succeed reaches Committed and delivers |
| OutcomeRetry.UndisturbedRequestAnswers | controller/relay.go:133-144 | the same for the whole system: one more answer; the returned response and the snapshot are stored for a fresh outcome, the returned summary for one that had none, and exactly that next state is added to the conversation |
| OutcomeRetry.CommittedReplays | controller/context_consensus_outcome_resume.go:21-28 | a committed outcome is replayed to whoever asks again, and nothing but the answer is added |
| OutcomeRetry.CrashAfterSwapHeals | service/contextconsensus/managed_outcome.go:402-470 | a crash between storing the revision and marking it is healed by a retry without storing anything again |
| OutcomeRetry.HealIff | middleware/context_consensus_policy.go:110-312 | such a retry can answer if and only if the stored revision is still the latest |
| OutcomeOvertaken.OvertakenIsReachable | service/contextconsensus/managed_outcome.go:437-442 | a run from the start leads to a stored revision whose outcome no retry can answer any more: a crash right after storing, and the next revision stored before the retry |
| OutcomeRetry.CompletionIff | model/billing_operation.go:186-284 | with the conversation at the expected revision, whoever holds its lease, a resumable outcome can still be committed in some run if and only if neither of its operations is refunded |
| OutcomeRetry.RefundedNeverCommits | model/billing_operation.go:419-462 | an outcome with a refunded operation is never committed and never answered in any run |
| OutcomeRetry.RefundTrapsOutcome | service/contextconsensus/executor.go:432-469 | from a fresh outcome one failing request reaches a state from which no run commits it |
| OutcomeRetry.DispatchedIsRefused | controller/context_consensus_outcome_resume.go:67-69 | a retry that finds a dispatched but unsettled phase fails whatever it tries and leaves every slot and the conversation as they were |
| OutcomeRetry.AbandonedStaysUnanswered | controller/context_consensus_managed_commit.go:75-78 | once the request that dispatched the main call has stopped without settling, no later run settles it or answers |
| OutcomeRetry.SpentStaysUncommitted | controller/internal_compaction_executor.go:434-550 | once the summary call was charged for an invalid summary, or its request stopped without settling it, no later run commits the outcome or answers |
| ManagedRuns.ActFollows | controller/context_consensus_managed_commit.go:75-275 | where a request can be after each effect: stopped, or at the one effect the source issues next |
| ManagedRelay.Gateway.Perform | controller/context_consensus_managed_execution.go:53-59 | an effect amid arbitrary acts of others: the run goes on by theirs and then the effect, its failure or the process's death, as planned; with nothing planned the effect happens and nothing else; success means its documented continuation |
| ManagedRuns.CommitStage | service/contextconsensus/managed_session.go:312-460 | unless both compare-and-sets are lost on the way, whichever replies get lost, the checkpointed state is stored exactly once |
| ManagedRuns.RequestGoes | controller/relay.go:133-428 | the effects of the request path, run undisturbed with succeeding calls from Intent, MainSettled, SettledPendingCommit (stored or not) or Committed, deliver one answer and store what the calls returned |
| ManagedRelay.Gateway.PrepareManagedConsensusRequest | middleware/context_consensus_policy.go:110-312 | entry routes by the stored phase, heals a stored but unmarked commit, and otherwise takes the lease |
| ManagedRelay.Gateway.ExecuteSummaryChild | controller/internal_compaction_executor.go:434-550 | reserve, mark, dispatch and settle in this order, or the request has stopped; undisturbed, exactly what these four effects make of what the request sees |
| ManagedRelay.Gateway.CommitWithRecovery | service/contextconsensus/managed_session.go:312-400 | at most two compare-and-sets, each unclear reply resolved by reading; success means the next revision is stored |
| ManagedRelay.Gateway.CommitAndFlushManagedRevision | controller/context_consensus_managed_commit.go:230-275 | success means stored, marked and answered |
| ManagedRelay.Gateway.ExecuteManagedPreparedTextAttempt | controller/context_consensus_managed_execution.go:33-93 | success means dispatched, buffered and settled with its checkpoint; an upstream failure leaves the request dispatched |
| ManagedRelay.Gateway.ExecuteManagedContextAttempt | controller/context_consensus_managed_commit.go:75-214 | an attempt dispatches only from Intent and ends answered, stopped, or dispatched without a result |
| ManagedRelay.Gateway.ResumeManagedContextOutcome | controller/context_consensus_outcome_resume.go:16-99 | resumes exactly the outcomes that are not fresh; a resumed request has answered or stopped |
| ManagedRelay.Gateway.RelayLetIn | controller/relay.go:337-428 | from where it was let in a request has answered or not; undisturbed and with an upstream answer it does exactly the effects its phase calls for |
| ManagedRelay.Gateway.RelayAttempts | controller/relay.go:337-428 | the retry loop terminates even if the retry counter is reset for ever: there are at most two attempts, the second exactly after a channel error with a reset, and only the first can answer |
| OutcomeCleanUp.HeldIsReserved | service/billing_session.go:105-117 | in every run what a request holds was really reserved |
| OutcomeCleanUp.FailedIsTidied | controller/relay.go:316-325 | in every run, whatever else happens and in whatever order they come, a failed request that has had both refunds and the release leaves nothing it reserved reserved and holds no lease, now and ever after |
| ManagedRelay.Gateway.TryToGiveBack | service/billing_session.go:105-117 | one clean-up effect happens, fails and is only logged, or is where the process dies, as planned; with nothing planned it happens and nothing else |
| ManagedRelay.Gateway.CleanUp | controller/relay.go:316-325 | a failed request tries both refunds and the release, an answered one only the release; if all of them happened it is tidy, and with nothing in the way they do |
| ManagedRelay.Gateway.Relay | controller/relay.go:133-428 | an undisturbed request whose calls succeed, for a new outcome or one in Intent, MainSettled, SettledPendingCommit or Committed, succeeds: one more answer, which carries the stored response, the returned state stored, the lease released; in general success means answered and committed, and a failed request whose clean-up effects all happened has given back what it held |
| ResponseBuffer.AllOrNothing | controller/managed_response_buffer.go:67-79 | however a response is cut into writes, it overflows exactly when the whole does not fit and is otherwise held whole |
| ResponseBuffer.ManagedResponseBuffer.Body | controller/managed_response_buffer.go:114-122 | the body is available exactly when everything fits and nothing was flushed |
| ResponseBuffer.ManagedResponseBuffer.FlushToClient | controller/managed_response_buffer.go:124-151 | the client gets the whole response once with only three headers, nothing at all on an error of the buffer, and a part that is never repeated if the connection fails |
| ResponseBuffer.ClientHeaderMeans | controller/managed_response_buffer.go:132-143 | the client sees one of two content types, the length in decimal and the trimmed revision if there is one, and no other header |
| ResponseBuffer.ManagedResponseBuffer.Write | controller/managed_response_buffer.go:67-79 | one write is taken whole or not at all, and after the first that does not fit none is |
| RateLimit.DecisionsAreExact | common/rate-limit.go:45-70 | with any sweeps and other keys in between, every decision is the one of a limiter that remembers every accepted request |
| RateLimit.WindowsStayWithinCapacity | common/rate-limit.go:52-63 | no window of the limit's length holds more accepted requests than the limit |
| RateLimit.RecentCounts | common/rate-limit.go:52-63 | what the reference limiter compares with its capacity is the number of accepted requests inside the window |
| RateLimit.ExactIffWindowFitsExpiry | common/rate-limit.go:28-42 | decisions are exact in every run if and only if the window is at most one second longer than the expiry |
| RateLimit.InMemoryRateLimiter.Request | common/rate-limit.go:45-70 | the queue operation decides by the full history |
| RateLimit.InMemoryRateLimiter.ClearExpiredItems | common/rate-limit.go:28-42 | one pass drops exactly the keys whose newest request has expired, in any order |
| PricingDiff.BuildDifferences | controller/ratio_sync.go:536-696 | the three phases compute exactly the declarative report |
| PricingDiff.ReportIsUnique | controller/ratio_sync.go:536-696 | the report is determined by its inputs, whatever order maps are walked in |
| PricingDiff.ReportedIffDiffers | controller/ratio_sync.go:593-696 | for distinct names and plain values, (model, field) is reported exactly when some channel's value differs from the local one; when two values differ is said on the raw tables by the next four rows |
| PricingDiff.NumbersReportedIff | controller/ratio_sync.go:48-62 | in a numeric field two numbers of any type are reported, with both amounts, exactly when they are at least 0.000000001 apart; otherwise only the marker can stand there |
| PricingDiff.OthersReportedIff | controller/ratio_sync.go:55-62 | any other two values are reported exactly when they are unequal and the offered one is not the marker |
| PricingDiff.NewValueReportedIff | controller/ratio_sync.go:618-624 | a value for a model without a local one is reported exactly when it is neither null nor the marker |
| PricingDiff.DistrustedIff | controller/ratio_sync.go:568-590 | a reported channel is distrusted exactly when it gives the model a ratio of 37.5 and a completion ratio of 1, both up to the tolerance |
| PricingDiff.ItemListsDifferingChannels | controller/ratio_sync.go:656-693 | an item lists exactly the channels with a difference anywhere, each with its own value, the marker or nothing |
| PricingDiff.ReportedDiffers | controller/ratio_sync.go:631-688 | without any hypothesis, what is reported differs |
| PricingDiff.DifferenceLostIff | controller/ratio_sync.go:656-688 | a difference is not reported exactly when every channel that tells something anywhere gives here the local value, the literal marker, or nothing where nothing is set |
| PricingDiff.LiteralMarkerIsLost | controller/ratio_sync.go:612-616 | an upstream value that reads like the marker is lost |
| PricingDiff.CompareChannels | controller/ratio_sync.go:595-651 | the inner loop computes the row, the confidences and whether to include them |
| PricingDiff.PruneItem | controller/ratio_sync.go:669-687 | pruning keeps exactly the informative channels and tells whether anything but markers is left |
| ModelsDev.SelectedIsNearlyCheapest | controller/ratio_sync.go:881-893 | the selected price is less than the tolerance above every valid non-zero price, and zero only if there is none |
| ModelsDev.SelectedIsOffered | controller/ratio_sync.go:915-944 | something is selected exactly when some provider's price is valid, and it is that provider's |
| ModelsDev.OfferIff | controller/ratio_sync.go:845-879 | a provider offers a model at a price exactly when its listing states it: a non-negative input, an output that is absent or not negative and zero where the input is, the cache price where it is a non-negative number |
| ModelsDev.BeforeIff | controller/ratio_sync.go:915-919 | the order of providers is that of the first character in which two names differ |
| ModelsDev.SelectedBeatsEarlier | controller/ratio_sync.go:881-893 | the selected price is strictly below every valid non-zero price of an earlier provider; a zero price comes from the first valid one |
| ModelsDev.OrderMattersWithoutSorting | controller/ratio_sync.go:915-919 | the same listing walked backwards yields a price beyond the tolerance, so the sorting is needed |
| ModelsDev.NearlyEqualIsNotTransitive | controller/ratio_sync.go:48-53 | the near-equality is not transitive |
| ModelsDev.SelectCandidates | controller/ratio_sync.go:915-944 | the nested loops compute, for every model, the fold over the sorted providers, independent of map order |
| UpstreamModels.NothingPendingIff | controller/channel_upstream_update.go:179-238 | nothing is pending exactly when every offered model is served, the target of an alias or ignored, and every served model is offered or an alias |
| UpstreamModels.GetModelsReadsAll | model/ability.go:269-284 | for every stored text the names are exactly the non-empty trimmed pieces between its commas, in order |
| UpstreamModels.NormalizeReadsOnce | controller/channel_upstream_update.go:100-105 | for every list the normal form holds exactly its non-empty trimmed elements, each once, in the order of first occurrence |
| UpstreamModels.LocalReadsOnce | controller/channel_upstream_update.go:179-190 | the models a channel serves are the pieces of its stored text, each once, in the order of first occurrence |
| UpstreamModels.DetectMeans | controller/channel_upstream_update.go:179-238 | on the lists as they are: a name is missing exactly when it is offered and not served, redirected to or hidden by an ignore entry, literal or `regex:`; it is gone exactly when it is served and neither offered nor an alias; both in their list's order |
| UpstreamModels.SelectionKeepsOrder | controller/channel_upstream_update.go:932-937 | a request selects the pending names it holds in its own order |
| UpstreamModels.RedetectIff | controller/channel_upstream_update.go:919-967 | after any selection is applied a new detection returns the stored remaining lists, in order, if and only if no added name holds a comma and the ignore list hides what it hid before and the newly ignored names, and nothing else |
| UpstreamModels.RedetectPlainIff | controller/channel_upstream_update.go:919-967 | for names that match nothing on offer as patterns: if and only if no added name holds a comma and no merely ignored name reads like a pattern |
| UpstreamModels.ApplyAllSettlesIff | controller/channel_upstream_update.go:986-1023 | applying everything leaves nothing to detect if and only if no pending name holds a comma and none was an ignore pattern still in use |
| UpstreamModels.ApplyStaysWithinPendingIff | controller/channel_upstream_update.go:935-945 | the selection lies in the pending lists and nothing is duplicated; models are gained and lost exactly as selected, the rest in order, if and only if no name that is new to the channel holds a comma |
| UpstreamModels.ApplySplitsPending | controller/channel_upstream_update.go:947-954 | pending-add splits disjointly into added, newly ignored and remaining; adding wins over ignoring |
| UpstreamModels.CheckIsUpToDateIff | controller/channel_upstream_update.go:474-521 | after a check the stored lists are what a detection finds, with automatic adoption exactly when no adopted name holds a comma; the adopted names then follow the ones that are served |
| Text.SplitOfJoin | model/ability.go:269-283 | splitting undoes joining exactly when no part holds the separator |
| Text.JoinOfSplit | model/ability.go:269-283 | joining undoes splitting for every text |
| Text.TrimSpaceIff | model/ability.go:276 | trimming gives the one text that is the given one without the white space around it |
| UpstreamModels.StoredListIff | model/ability.go:269-283 | a normal list survives being stored as one string exactly when no name holds a comma |
| UpstreamModels.PatternNameMisfires | controller/channel_upstream_update.go:948-950 | adding a name that is also an ignore pattern brings back what the pattern hid |
| UpstreamModels.Channel.CheckAndPersist | controller/channel_upstream_update.go:474-521 | the three outcomes of a check and whether the stored lists are then up to date |
| UpstreamModels.Channel.ApplyUpdates | controller/channel_upstream_update.go:919-967 | the field updates are the applied state |
| MultiKey.RowsDetermineMaps | model/channel.go:65-73 | the table of rows says everything the three maps say |
| MultiKey.StorableIff | model/channel.go:178-200 | a key list is read back from its stored text exactly when it is storable |
| MultiKey.KeysMean | model/channel.go:178-200 | the keys of a text are the elements of its array if it starts with a bracket and reads as one, otherwise the pieces between its line breaks but for breaks around the whole |
| MultiKey.RewriteIff | model/channel_mutation.go:51-112 | rewriting fewer rows stores them exactly when their keys are storable; storing none leaves all keys, enabled |
| MultiKey.Channel.DisableKey | controller/channel.go:1672-1713 | sets one status and nothing else |
| MultiKey.Channel.EnableKey | controller/channel.go:1715-1755 | clears one row and nothing else |
| MultiKey.Channel.EnableAllKeys | controller/channel.go:1757-1779 | clears every row and reports how many were not enabled |
| MultiKey.Channel.DisableAllKeys | controller/channel.go:1781-1826 | disables exactly the enabled rows, reports their number and keeps the others |
| MultiKey.Channel.DeleteKey | controller/channel.go:1828-1906 | removes exactly one row if and only if the remaining keys are storable; the last key stays |
| MultiKey.Channel.DeleteDisabledKeys | controller/channel.go:1908-1975 | filters the table if and only if the surviving keys are storable; with no survivor everything is enabled again |
| MultiKey.Channel.UpdateStatus | model/channel.go:581-760 | the outside step sets or clears the first row that has the used key and adjusts the status of the channel, and does nothing if the channel already has the wanted status |
| MultiKey.EnableTakesEffectIff | model/channel.go:690-692 | enabling one disabled key has an effect exactly while the channel as a whole is not enabled |
| MultiKey.PlainStays | controller/channel.go:1672-1975 | keys without line breaks, leading spaces or brackets stay so, and stay storable, under each of the seven actions |
| MultiKey.RemovalExposesEmptyKey | model/channel.go:198-199 | a storable key list from which one key is removed need not be storable |
| MultiKey.Channel.PerformAll | controller/channel.go:1672-1975 | over any run of the seven actions key list, size and three maps are one table of rows, and each action does to it exactly what its name says |
| MultiKey.InStoredNumbers | common/constants.go:243-247 | what the actions do in the stored numbers: 1 enabled, 2 disabled by hand, 3 disabled automatically |
| JsonKeys.ValueAccepted | common/json.go:68-110 | on the tokens of any value and any rest, acceptance is exactly pairwise distinct names at every depth (section 4 of RFC 8259), having consumed exactly the value |
| JsonKeys.AcceptedIsValue | common/json.go:68-110 | nothing else is accepted |
| JsonKeys.DocumentAcceptedIff | common/json.go:54-66 | the whole text is accepted exactly when it is one such value and nothing after it |
| JsonKeys.Decoder.ValidateValue | common/json.go:68-110 | the recursive loops over the stateful decoder compute the same verdict and leave the same rest |
| JsonKeys.Decoder.ValidateUniqueObjectKeys | common/json.go:54-66 | the top-level function gives the verdict on the whole text, with the same error |
| OggScan.ScanFindsLargest | common/audio.go:196-254 | whole pages (section 6 of RFC 3533) between stretches without a capture pattern yield the largest non-negative granule position |
| OggScan.PageIsRead | common/audio.go:228-248 | a well-formed page is read and skipped exactly |
| OggScan.Signed64Means | common/audio.go:228-231 | a granule position is eight bytes, little-endian, in two's complement |
| OggScan.GetOpusDuration | common/audio.go:196-254 | the seeking loop terminates on every input and returns the scan's result at 48 kHz (section 4 of RFC 7845) |
| BodyStore.IndistinguishableIff | common/body_storage.go:44-279 | after any operations both storages answer the next one alike, except an empty read at the end or a use of a reader after its own close |
| BodyStore.ReadersAreIndependent | common/body_storage.go:98-108 | readers of either storage keep their cursor whatever else happens, the closing of the storage included |
| BodyStore.BytesLeaveNoTrace | common/body_storage.go:225-257 | reading everything returns exactly the data and restores the cursor |
| BodyStore.DeliversWhatFitsIff | common/body_storage.go:307-336 | exactly the stream when it fits and a refusal otherwise, if and only if the limit is not the largest integer |
| BodyStore.CreateBodyStorageFromReader | common/body_storage.go:307-348 | either path stores exactly what the limited reader delivers and counts one storage of its size; it is on disk, or fails for the disk, exactly by the announced or the real size; disk usage stays within its maximum unless a body is longer than announced |
| BodyStore.CreateBodyStorage | common/body_storage.go:286-304 | the data is stored and counted once, on disk exactly when that is enabled, works, the size reaches the threshold and the maximum leaves room |
| BodyStore.DiskStorage.Bytes | common/body_storage.go:225-257 | seek, read, seek back leaves the state as it was |
| BodyStore.MemoryStorage.Close | common/body_storage.go:80-87 | closing twice lowers the counters once |
| DiskCache.RunBalances | common/disk_cache_config.go:108-134 | in every interleaving of the single counter steps the counters balance and the reset to zero is never taken |
| DiskCache.SettledCountersAreExact | common/disk_cache_config.go:108-134 | with no storage in the middle of opening or closing, the counters are the number and total size of the open ones |
| CandidateSearch.EvaluateCandidates | controller/context_consensus_orchestrator.go:256-298 | the first candidate that prepares, matches and fits is returned open, every other prepared one is closed, later ones are never prepared; tokens, errors and all-over-limit are exact |
| CandidateSearch.MostTokensIsMaximum | controller/context_consensus_orchestrator.go:286-288 | the reported tokens are the maximum over prepared candidates of the right protocol |
| CandidateSearch.FirstWinner | controller/context_consensus_orchestrator.go:273-293 | the least index of a candidate that wins |
| CandidateSearch.RequestContext.CommitMainRequest | controller/context_consensus_orchestrator.go:413-463 | handing over closes the former body, keeps the new one open and makes a later close of the commit harmless |
| CandidateSearch.MainCommit.Close | controller/context_consensus_orchestrator.go:58-68 | releases both resources exactly when they were not handed over |
| RedisHash.RoundTripIff | common/redis.go:107-239 | a record comes back exactly when every field survives and something was stored; structs survive exactly when blank |
| RedisHash.StoredTexts | common/redis.go:126-144 | the text stored for each kind of field |
| RedisHash.ReadingFailsIff | common/redis.go:188-236 | reading one field fails exactly on a number or flag that cannot be read or an unsupported type, and says which; a field that is not stored stays its type's zero |
| RedisHash.DecodeIsPointwise | common/redis.go:188-238 | reading the fields in order with an early exit is reading each on its own |
| RedisHash.HSetObj | common/redis.go:113-148 | the loop stores every field but deletion marks under its name |
| RedisHash.HGetObj | common/redis.go:161-239 | the loop restores the fields in order and stops at the first it cannot read |
| Decimal.ParsePrintIff | common/redis.go:143-214 | parsing undoes printing exactly for 64-bit integers |
| Decimal.ParseIff | common/redis.go:207-212 | a text reads as a number exactly when it is its decimal digits after any zeros and a sign, and the number fits 64 bits |

## Left out

- HTTP, routing, web sockets, logging, audit text, authentication and every header but the three named above.
- The encryption of stored payloads, key rotation, and the provider-state variant of the commit; a stored payload is the value itself.
- The expiry of the conversation record in Redis: a revision once stored stays. Retention of outcomes is modelled (`TimeOut`, `Scrub`).
- A compare-and-set request that is delayed and takes effect after its reply was given up and resolved: it takes effect before, or not at all.
- The swap of the request's writer for the buffer and back, and the health checks between effects, which appear as failing effects.
- The lease renewal loop; leases may expire at any moment, which is more than it allows.
- Normalisation of upstream answers and usage, and planning of the summary: what they reject appears as a failing effect.
- The retry loop of requests that are not managed; its termination depends on channel selection.
- Quota amounts: a charge is counted, not priced. Rounding of ratios and conversion to ratios are left out as easy.
- Regular-expression matching and JSON parsing of key arrays are arbitrary given functions; the JSON decoder is given as tokens whose delimiters match.
- UpstreamModels.RedetectIff: excludes requests that add a name with a comma and at the same time ignore a name that, read as a pattern, matches it.
- OutcomeFencing.TokensAreUnique: the counter of tokens in Redis has an expiry of its own, after which it starts again; the model's counter does not.
- Database writes of a whole struct skip empty fields (an object-relational mapper's rule), as the multi-key update relies on; failures of the database are not modelled for it.
- Aliasing of the byte slice that memory storage hands out, short reads of files, and cleaning up, resetting or re-synchronising the cache counters.
- Existing fields of a Redis hash that the record no longer has, and the expiry of the hash.
- Status listing, paging and polling of keys, key append on channel update, and the in-memory copy of channels, in which a status is set before the stored channel is looked at.
