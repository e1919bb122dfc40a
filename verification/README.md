# DeeperSeek: verified model

DeeperSeek pairs queued questions with human or AI responders, streams the answers as append-only fragments and
keeps a ledger of points. One contract, `core.Backend`, is implemented twice: in memory under one mutex, and on
Postgres plus Redis across several instances. This project models both, the two matchers, the stream delivery, the
rate limiter, the event-stream writer and reader, the fallback responder and the persona conversation loop, and proves
what they guarantee in every run or interleaving.

`dafny verify dfyconfig.toml` checks all of it.

## How it is organised

| files | what they hold |
|---|---|
| `Sequences`, `Sums`, `Domain` | shared vocabulary: sequences, sums over maps, the entities and the rules on one request |
| `ServiceSpec` | the in-memory service as a state with one function per operation, and runs of operations |
| `RequestRules`, `ServiceInvariant`, `ServiceSteps`, `ServiceOperations` | the service invariant and its preservation by every operation |
| `ServiceEffects` | what each operation does to the stored fields and when it refuses, written out with the service's own numbers |
| `ServiceTheorems`, `ServiceMatching`, `FragmentOrigin`, `Holders`, `Overdraft` | what every run of the service guarantees |
| `ServiceWitnesses` | runs of the service that show where a guarantee has its exceptions |
| `Service` | the service as a class whose methods update its fields and loop as the Go code does, proved against `ServiceSpec` |
| `Matching`, `Coordinator` | the two matchers, stable matchings, the Redis script as loops over lists |
| `Protocol`, `ProtocolInvariant`, `ProtocolProofs`, `ProtocolTheorems` | the Postgres and Redis backend as interleaved atomic steps, and what every interleaving guarantees |
| `ProtocolEffects`, `ProtocolOwners` | what each of those steps does to rows, ledger, tasks, queue and keys; who holds, answers and is paid for a request |
| `StreamDelivery`, `Sse` | the delivery goroutine over Postgres; the event-stream writer and the browser's reader |
| `RateLimiter` | the token-bucket limiter with eviction, over the reals |
| `Fallback` | chunking, the emitter, and what a fallback attempt commits |
| `Conversation`, `ConversationRuns` | the persona loop and its meaning in runs of the service |

Conventions. Clock readings, fresh identifiers, the iteration order of a map, the outcome of waits and the replies of
external services are parameters; a result that does not mention them holds for all of them. A run is any sequence of
operations whose fresh identifiers are new. Text is a sequence of characters, one per rune. Every operation of
`core.Service` runs under one mutex and is one step. In the distributed model every SQL transaction or statement, every
Redis command and every run of the script is one step, what a call still has to do is a task, and tasks of any number
of instances interleave arbitrarily.

Representation. Fragments, the idempotency index and the stream subscribers, which the Go service keeps in maps keyed
by request, are fields of the request record. Sessions are stored by id with a separate map from tokens. A responder's
inbox holds request ids. Fields that no rule reads (nicknames, display ids, model names) are left out.

## Where a property had to be made exact

- **Retries.** A submission of a client sequence that was turned down can be repeated with a text that does fit, and is
  then stored. So a sequence of submissions equals its first occurrences exactly under a condition on the texts
  (`RetriesLeaveNoTrace`, `RetryLeavesNoTraceIff`); once a fragment is stored, any repeat is harmless
  (`RetryAfterAnything`).
- **Lost requests.** The fallback commits its take-over and removes the queue entry in two steps. With the two as one
  step nothing is ever lost, however late the removals come that cancellations owe (`NoLostRequest`). Apart, a sweeper
  that puts the request back in between makes the late removal lose it (`LateRemovalLosesRequest`). That is the only way:
  a step loses a request exactly if it is a removal that hits a request standing only in the queue, and that removal is
  owed by such a take-over, never by a cancellation (`LostExactlyByLateRemoval`). A lost request is not gone: a fallback,
  or a call that still knows it, can take it up.
- **Quiescence.** A disconnect puts its request back without a matching pass. It leaves a compatible pair waiting exactly
  if an available responder suits the request (`DisconnectLeavesPairIff`; `DisconnectLeavesPair` is a run where it does);
  no other operation does (`StepQuiescent`).
- **Eviction.** The limiter behaves like one that never evicts, and keeps its rate bound, exactly if the burst is at most
  ten minutes of refill (`EvictionIsTransparentIff`, `RateBoundIff`).
- **Overdraft.** A reaction can lower a reward after it was spent. An operation overdraws a user exactly if it is a
  reaction by someone who may react and lowers the reward of an answer of that user by more than is left
  (`OverdrawnIff`; `DislikeOverdraws` is a run where it does). The overdraft is bounded by what reactions took back (`BoundedOverdraft`).
- **Event stream.** Payloads come through exactly if none contains a newline (`RoundTripIff`).
- **AI participation across instances.** The script reads a responder's kind from a hash whose entry it drops when the
  responder's presence lapses, and then takes the responder for a human. As long as it knows the kinds, the rules hold in
  every interleaving (`ParticipationInEveryRun`); otherwise a persona can get a question that refuses AI
  (`ForgottenKind`). What a session holds, a run of the script chose for it by the rules from what it had read
  (`HoldersAreChosen`).
- **End reason.** Abandoning a request tells those who are listening `stop`, but stores no reason. What a subscriber is
  told is the stored reason exactly if the request was not abandoned while it was listening (`SubscriberAgreement`;
  `ToldAnotherReason` is a run where the two differ).

## Model

| member | source | states |
|---|---|---|
| Matching.MatchersAgree | backend/internal/core/service.go:778-842 | for all lists without repeats, any presence and any compatibility, draining with the in-memory matcher over the present responders and draining with the Redis script hand out the same pairs and leave the same queue and the same responders |
| Matching.StableIsUnique | backend/internal/core/service.go:814-842 | two stable matchings of the same queue and available list are equal |
| Matching.MemoryDrainIsStable | backend/internal/core/service.go:778-842 | draining request by request hands out a stable matching, leaves the rest in order and no compatible pair |
| Matching.ScriptDrainIsStable | backend/internal/pgredis/coordinator.go:101-148 | draining responder by responder, with lapsed responders dropped and passed-over ones put back, hands out a stable matching of the present responders |
| Matching.OldestCompatibleFirst | backend/internal/core/service.go:814-842 | every older request a chosen responder could have taken went to a responder that had waited longer |
| Coordinator.Redis.PopResponders | backend/internal/pgredis/coordinator.go:110-147 | the popping loop of the script finds the choice and the list that the script specification gives, and takes out of the hashes exactly the entries of popped responders that are not present |
| Coordinator.Redis.RestoreSkipped | backend/internal/pgredis/coordinator.go:105-109 | passed-over responders are back at the head in their old order |
| Coordinator.Redis.FirstSuited | backend/internal/pgredis/coordinator.go:120-143 | finds the oldest queued request that the routing keys allow for a responder |
| Coordinator.Redis.RunAssignScript | backend/internal/pgredis/coordinator.go:101-148 | one script run removes exactly the chosen request and responder, locks the request for it, and otherwise drops exactly the lapsed responders it pops, from the list and from the hashes |
| Coordinator.BackendsPairAlike | backend/internal/pgredis/lifecycle.go:826-834 | with the same records, a matching pass of the in-memory service and a drain with the script end with the same queue, the same available list and the same assignments |
| InMemoryService.Service.constructor | backend/internal/core/service.go:59-87 | a new service is empty and satisfies the invariant |
| InMemoryService.Service.Register | backend/internal/core/service.go:89-124 | a new account gets its signup grant and a session; the invariant is kept |
| InMemoryService.Service.Login | backend/internal/core/service.go:126-140 | a new session of an existing account; the invariant is kept |
| InMemoryService.Service.GuestSession | backend/internal/core/service.go:142-150 | a new session without an account; the invariant is kept |
| InMemoryService.Service.PersonaSession | backend/internal/core/service.go:721-729 | a new session of an AI persona; the invariant is kept |
| InMemoryService.Service.CreateRequestLocked | backend/internal/core/service.go:174-226 | input limit, authorisation, targeting and balance checks in order, then the request is enqueued and matched |
| InMemoryService.Service.CreateRequest | backend/internal/core/service.go:162-226 | as above, and the invariant is kept |
| InMemoryService.Service.CreateTargetedRequest | backend/internal/core/service.go:167-172 | a request for one named responder, closed to AI; an empty name is an error; the invariant is kept |
| InMemoryService.Service.RegisterResponder | backend/internal/core/service.go:228-238 | the session gets an empty inbox; the invariant is kept |
| InMemoryService.Service.UnregisterResponder | backend/internal/core/service.go:240-265 | the responder leaves every list and its request is given up, or completed as partial; the invariant is kept |
| InMemoryService.Service.MarkResponderAvailable | backend/internal/core/service.go:267-283 | the preference is stored as given, an idle responder is listed once and a matching pass runs, as `ServiceEffects.MarkExactly` spells out; the invariant is kept |
| InMemoryService.Service.ResumeResponder | backend/internal/core/service.go:285-300 | an idle responder is listed once and a matching pass runs; the invariant is kept |
| InMemoryService.Service.AcquireFallbackAssignment | backend/internal/core/service.go:302-333 | only an open, untargeted, queued request without an answer goes to its own fallback session; the invariant is kept |
| InMemoryService.Service.SubmitFragment | backend/internal/core/service.go:388-453 | errors, retry, limit, charge, publication and completion at the limit as specified; the invariant is kept |
| InMemoryService.Service.Finish | backend/internal/core/service.go:455-471 | completes the active request with reason stop, exactly if it has an answer; `ServiceEffects.FinishExactly` spells out the new state; the invariant is kept |
| InMemoryService.Service.Skip | backend/internal/core/service.go:473-494 | gives the active request back or abandons it, never after a fragment; the invariant is kept |
| InMemoryService.Service.React | backend/internal/core/service.go:496-537 | accepted exactly from the requester, for a completed answer and within the window; books the difference of rewards, as `ServiceEffects.ReactExactly` spells out; the invariant is kept |
| InMemoryService.Service.CancelBeforeFirstFragment | backend/internal/core/service.go:539-550 | abandons a live request without an answer and nothing else; the invariant is kept |
| InMemoryService.Service.SweepTimeouts | backend/internal/core/service.go:358-386 | the sweep over all requests, in some order, and one matching pass if anything expired; the returned list holds exactly the requests that were assigned or streaming for at least their timeout, each once; the invariant is kept |
| InMemoryService.Service.Subscribe | backend/internal/core/service.go:552-580 | a new subscriber is served the answer so far and the end if it came; the invariant is kept |
| InMemoryService.Service.Unsubscribe | backend/internal/core/service.go:574-578 | the subscriber is forgotten and nothing else changes; the invariant is kept |
| InMemoryService.Service.ReceiveAssignment | backend/internal/core/service.go:228-238 | the responder takes the oldest assignment from its channel; the invariant is kept |
| InMemoryService.Service.ReceiveEvent | backend/internal/core/service.go:552-580 | a subscriber takes one event and its buffer has room for one more; the invariant is kept |
| InMemoryService.Service.TryAssignLocked | backend/internal/core/service.go:778-812 | the loop computes the specified matching pass, also when a full inbox puts a request back |
| InMemoryService.Service.CompatiblePairLocked | backend/internal/core/service.go:814-842 | finds the pair of the oldest request that has any compatible responder, or none if there is no pair |
| InMemoryService.Service.BalanceLocked | backend/internal/core/service.go:751-765 | total and held points of a user, over the whole ledger and all requests |
| InMemoryService.Service.RemoveAvailableLocked | backend/internal/core/service.go:956-964 | the list without the responder, the others in order |
| InMemoryService.Service.RemoveQueuedLocked | backend/internal/core/service.go:966-974 | the queue without the request, the others in order |
| InMemoryService.Service.AbandonLocked | backend/internal/core/service.go:861-875 | the request leaves the queue, its responder is freed and its hold is released |
| InMemoryService.Service.CompleteLocked | backend/internal/core/service.go:877-893 | a live request ends with its reason and its responder is freed and paid |
| ServiceOperations.StepSound | backend/internal/core/service.go:162-580 | every operation keeps the invariant and lets every request only evolve |
| ServiceTheorems.InvariantInEveryRun | backend/internal/core/service.go:39-57 | in every run: the queue holds exactly the queued requests once each, the active map is a bijection between busy responders and assigned or streaming requests, available responders are listed once, registered and idle, and the books are in order |
| ServiceTheorems.LifecycleOverRuns | backend/internal/core/service.go:849-893 | over any continuation of any run: ended requests stay as they ended, answers only grow at the end, nothing is put back or abandoned after the first fragment, and all fragments of a request come from one session |
| ServiceTheorems.ExactOutputLimit | backend/internal/core/service.go:418-450 | in every run a live answer is shorter than its limit, none is longer, and the reason is length exactly when the answer is as long as the limit |
| ServiceTheorems.ParticipationRespected | backend/internal/core/service.go:814-847 | in every run a request that refuses AI is never held by one, a persona's question never by a persona, and a targeted request only by its preferred, human session |
| ServiceTheorems.SubscriberAgreement | backend/internal/core/service.go:552-580 | in every run a subscriber has been sent the answer in order and one end marker after it once the request has ended, exactly if its buffer was never found full; the reason it is told is the stored one if and only if the request was not abandoned while it was listening, and is stop otherwise |
| ServiceWitnesses.ToldAnotherReason | backend/internal/core/service.go:861-875 | a run after which a subscriber has been told stop and no reason is stored |
| ServiceTheorems.LedgerClosedForm | backend/internal/core/service.go:751-776 | in every run a user's total is 20, less 5 for each own request with a fragment, plus the current reward of each completed answer; held is 5 for each own live request without a fragment |
| ServiceTheorems.BoundedOverdraft | backend/internal/core/service.go:526-532 | in every run available points plus the shortfall of the user's answers below the best reward is never negative, nor is it with what reactions took back |
| ServiceTheorems.NoOverdraftUnlessLowered | backend/internal/core/service.go:192-199 | in a run where no reaction lowers a reward of the user, the user is never overdrawn |
| Overdraft.OverdrawnIff | backend/internal/core/service.go:496-537 | in every state that keeps the invariant, an operation takes a balance below zero if and only if it is a known reaction by the account or guest session that asked, within 24 hours, to an answer paid to that user, and the new worth is lower by more than is available |
| ServiceWitnesses.DislikeOverdraws | backend/internal/core/service.go:526-532 | a run that overdraws a user: it answers, spends everything on questions, and the answer is disliked |
| ServiceTheorems.RetriesLeaveNoTrace | backend/internal/core/service.go:399-453 | any sequence of submissions whose repeats are retries leads to the same state as the first submission of each client sequence alone |
| ServiceTheorems.RetryLeavesNoTraceIff | backend/internal/core/service.go:411-421 | a repeat leaves no trace in any reachable state if and only if no request takes it, or it is at least as long as a non-empty first text |
| ServiceTheorems.RetryAfterAnything | backend/internal/core/service.go:411-417 | after any further run, while the session keeps its request, a repeat of a stored client sequence changes nothing and is answered with the stored fragment |
| ServiceTheorems.RepeatMattersIff | backend/internal/core/service.go:399-421 | a repeat has an effect exactly if the first submission was turned down and the second would have been taken in its place |
| Domain.SeqKeyInjective | backend/internal/core/service.go:411 | the idempotency key determines the session and the client sequence |
| ServiceMatching.TryAssignIsDrain | backend/internal/core/service.go:778-812 | with room in every inbox the pass hands out exactly the stable matching, and ends with the queue and the available list that leaves |
| ServiceMatching.OthersKeepTheirOrder | backend/internal/core/service.go:778-812 | requests a pass never picked keep their order, and every pass, full inboxes or not, ends with no compatible pair |
| ServiceMatching.StepQuiescent | backend/internal/core/service.go:162-580 | every operation but the disconnect that puts a request back keeps the queue and available list free of compatible pairs |
| ServiceMatching.DisconnectLeavesPairIff | backend/internal/core/service.go:254-259 | after that disconnect a compatible pair is waiting exactly if an available responder suits the request |
| ServiceWitnesses.DisconnectLeavesPair | backend/internal/core/service.go:240-265 | a run without a waiting pair until a disconnect leaves one |
| ServiceEffects.CreateExactly | backend/internal/core/service.go:174-226 | a question is accepted exactly with at most 100000 characters, a known token, a target only from a persona, and 5 available points unless a guest asks; each refusal has its error and changes nothing; the stored record is spelled out, with the limit between 1 and 128000, and is queued last before a matching pass |
| ServiceEffects.CompatibleExactly | backend/internal/core/service.go:824-847 | a queued request and a listed responder suit each other exactly if the responder is the preferred one or none is preferred, a persona gets no question that refuses AI or comes from a persona, and nobody who has refused persona questions gets one |
| ServiceEffects.HandOutExactly | backend/internal/core/service.go:786-810 | handing out takes the pair from both lists, records the session with its account, guest flag and kind, and puts the request into the inbox; an inbox of four sends it back to the end of the queue |
| ServiceEffects.PassExactly | backend/internal/core/service.go:778-842 | a pass changes nothing exactly as long as no pair is left; otherwise it first hands the oldest request that has a responder to the one waiting longest among those that suit it |
| ServiceEffects.MarkExactly | backend/internal/core/service.go:267-283 | an offer is refused exactly without registration; otherwise the preference is stored as given and an idle responder is listed once, last, before a matching pass |
| ServiceEffects.ResumeExactly | backend/internal/core/service.go:285-300 | the same without a change of preference |
| ServiceEffects.UnregisterExactly | backend/internal/core/service.go:240-265 | the responder leaves the lists; its request is completed as partial and paid if it has a fragment, abandoned if it is targeted, and queued last otherwise; nothing else changes |
| ServiceEffects.FallbackExactly | backend/internal/core/service.go:302-333 | the fallback takes a request exactly if it is queued, untargeted and open to AI; the record names the fallback session, which holds nothing else and is no session |
| ServiceEffects.SubmitExactly | backend/internal/core/service.go:388-453 | the error, the retry and the stored record of every submission: a used number is answered with its fragment, an answer over the limit is refused, the first fragment costs the asking account 5, and the answer that reaches the limit completes with reason length and pays 10; every subscriber with room hears of it |
| ServiceEffects.FinishExactly | backend/internal/core/service.go:455-471 | a finish is accepted exactly from a session that holds a request with a fragment; the request is completed with reason stop at that time, its responder is free and paid 10, every subscriber with room hears stop last, and nothing else changes |
| ServiceEffects.SkipExactly | backend/internal/core/service.go:473-494 | a skip is accepted exactly from a session that holds a request without a fragment; a targeted request or a persona's question is abandoned, any other is queued last and matched |
| ServiceEffects.CancelExactly | backend/internal/core/service.go:539-550 | a request is withdrawn exactly if it is queued or assigned; it leaves the queue, its responder is free, its points are released and its listeners hear stop |
| ServiceEffects.ReactExactly | backend/internal/core/service.go:496-537 | a reaction is accepted if and only if it is known, the token has a session, the request was completed at most 24 hours ago, and the session is of the asking account or the very guest session that asked; otherwise the error is given and nothing changes; the difference between 20, 10 or 8 points is booked to the answering account, whose balance is returned, or the asking one's, and none to a guest |
| ServiceEffects.SweepExactly | backend/internal/core/service.go:358-386 | in whatever order requests are visited: assigned for at least the timeout means queued again, or abandoned if targeted; streaming for at least its timeout means completed as partial; every other record is unchanged; a matching pass follows exactly if there was one of these |
| ServiceEffects.SubscribeExactly | backend/internal/core/service.go:552-580 | a new subscriber finds the text so far in one piece, if there is any, and then the end with the stored reason, if it came |
| Holders.TokensAreSignIns | backend/internal/core/service.go:89-150 | in every run a token stands for exactly the session of the sign-in that handed it out: a human's with an account or as a guest, or a persona's |
| Holders.HolderInEveryRun | backend/internal/core/service.go:786-800 | in every run the responder of a request is nobody, the fallback of that very request, or a known session recorded with its own account, guest flag and kind |
| Holders.PaidToTheWriter | backend/internal/core/service.go:877-893 | in every run a user is paid for exactly the completed answers whose fragments come from a session of its account |
| Holders.PreferenceIsStored | backend/internal/core/service.go:267-283 | in every run the stored preference on persona questions is the value of the responder's last offer made while registered, forgotten when it goes away |
| Holders.RefusalIsRespected | backend/internal/core/service.go:835-847 | no step of any run makes a responder that has last refused persona questions the holder of one |
| FragmentOrigin.OthersKeepAnswers | backend/internal/core/service.go:162-580 | every operation but a submission leaves all answers unchanged, and every operation but these and a reaction lowers no reward |
| FragmentOrigin.SubmitAdds | backend/internal/core/service.go:388-453 | a submission adds at most its own fragment, and only to the request its session holds |
| ProtocolProofs.StepSound | backend/internal/pgredis/lifecycle.go:92-541 | every transaction, command and script run keeps the distributed invariant and lets every row only evolve |
| ProtocolEffects.StepExactly | backend/internal/pgredis/lifecycle.go:119-380 | every step does exactly this to its row, the ledger, the owed calls, the queue and the routing keys: which row it becomes under which guard, with which status, reason, responder and time, and which points are booked to whom |
| ProtocolEffects.CreateExactly | backend/internal/pgredis/lifecycle.go:77-93 | a new row is queued, uncharged and without a responder, and is owed its routing keys |
| ProtocolOwners.HolderInEveryRun | backend/internal/pgredis/lifecycle.go:836-864 | in every interleaving the responder of a row is nobody, or the fallback of that very request, untargeted and open to AI, or a known session recorded with its own account, guest flag and kind |
| ProtocolOwners.OnlyQueuedIsTaken | backend/internal/pgredis/lifecycle.go:858-864 | no step takes a request from one responder and gives it to another; it is queued in between |
| ProtocolOwners.SingleOwner | backend/internal/pgredis/lifecycle.go:119-207 | in every interleaving fragments exist exactly in the streaming and completed states and come from one session with ordinals 1..n; the asking account is charged 5 once, at the first fragment; the account of the session on the fragments is rewarded 10 once, exactly if the answer is completed and that session has an account, and nobody else is |
| ProtocolOwners.HoldersAreChosen | backend/internal/pgredis/coordinator.go:119-143 | in every interleaving what a session holds or answers was given to it by a run of the script under the rules: the preferred session only, no persona where AI is refused, no persona and nobody who refuses for a persona's question, as far as the script had read kinds and preferences |
| ProtocolOwners.ParticipationInEveryRun | backend/internal/pgredis/coordinator.go:119-143 | in every interleaving in which the script knows the kinds of sessions, AI never holds a question that refuses it, no persona a persona's question, and only the preferred session a targeted one |
| ProtocolOwners.ForgottenKind | backend/internal/pgredis/coordinator.go:116-147 | a concrete interleaving in which a persona whose kind was dropped gets a question that refuses AI |
| ProtocolTheorems.AnswersOnlyGrow | backend/internal/pgredis/lifecycle.go:901-941 | over any continuation of any interleaving answers only grow, ended rows stay as they are and a row with an answer keeps its responder |
| ProtocolTheorems.LostExactlyByLateRemoval | backend/internal/pgredis/lifecycle.go:283-313 | after any interleaving, a step loses a request if and only if it is a removal that hits a request which is queued and stands only in the queue; that removal is owed by a fallback take-over not removed at once, and the request was never cancelled |
| ProtocolTheorems.NoLostRequest | backend/internal/pgredis/lifecycle.go:283-313 | with the fallback's take-over and queue removal as one step, and removals owed by cancellations arbitrarily late, in every interleaving each request that Postgres calls queued is in the Redis queue, held by a pairing call or owed an enqueue |
| ProtocolTheorems.RemovalsInOrder | backend/internal/pgredis/lifecycle.go:711-745 | in every such interleaving a queue removal is owed only for an ended request, or by the take-over just made |
| ProtocolTheorems.LateRemovalLosesRequest | backend/internal/pgredis/lifecycle.go:283-361 | a concrete interleaving of the fallback and a sweeper that loses a request |
| ProtocolTheorems.ExactOutputLimit | backend/internal/pgredis/lifecycle.go:160-206 | in every interleaving a live answer is shorter than its limit, none is longer, and the reason is length exactly when the answer is as long as the limit |
| StreamDelivery.StreamIsComplete | backend/internal/pgredis/lifecycle.go:632-709 | in every interleaving of commits and delivery steps with any wake-ups lost, the emitted events are a gap-free prefix of the answer, and the end marker comes once, last and after the whole answer |
| StreamDelivery.OneWakeUpSuffices | backend/internal/pgredis/lifecycle.go:632-680 | once a request has ended, one wake-up makes a subscriber emit the rest of the answer and the end marker, whatever it had heard before |
| StreamDelivery.DrainFragmentsAfter | backend/internal/pgredis/lifecycle.go:682-701 | one drain emits the rows after the last ordinal in order until the consumer goes away, and returns the ordinal it reached |
| StreamDelivery.DrainIsEmitting | backend/internal/pgredis/lifecycle.go:682-701 | the emitting steps of the delivery goroutine send what the drain sends and reach the ordinal it returns |
| RateLimiter.NewConfig | backend/internal/httpapi/ratelimit.go:29-42 | a limiter is disabled exactly for a non-positive rate, has the given burst, and one minute's worth for a non-positive burst |
| RateLimiter.Limiter.AllowKey | backend/internal/httpapi/ratelimit.go:44-69 | the answer and the new table of one call |
| RateLimiter.AllowExactly | backend/internal/httpapi/ratelimit.go:44-77 | a call is allowed exactly if its key is new or has refilled a token; what is left of its bucket, and which idle keys a table of more than 20000 drops |
| RateLimiter.SpacedCallsPass | backend/internal/httpapi/ratelimit.go:44-77 | in any run a key whose calls are at least the time of one token apart is never turned down, whatever other keys do |
| RateLimiter.Limiter.SweepLocked | backend/internal/httpapi/ratelimit.go:71-77 | the sweeping loop removes exactly the buckets idle for more than ten minutes |
| RateLimiter.EvictionIsTransparentIff | backend/internal/httpapi/ratelimit.go:44-77 | the limiter answers every run with a monotone clock like one that never evicts, if and only if the burst is at most ten minutes of refill |
| RateLimiter.RateBound | backend/internal/httpapi/ratelimit.go:44-69 | in any time window of any run a key is allowed at most the burst plus the refill of the window |
| RateLimiter.RateBoundIff | backend/internal/httpapi/ratelimit.go:44-77 | that bound holds in every window of every run if and only if the burst is at most ten minutes of refill |
| Sse.ReadSSE | frontend/src/App.tsx:1866-1884 | however the text is cut into reads, the reader delivers the data lines of all terminated frames of the whole text, and keeps the unterminated rest |
| Sse.SplitResumes | frontend/src/App.tsx:1873-1875 | splitting in instalments, with the last part kept back, is splitting the whole |
| Sse.StreamChatCompletion | backend/internal/httpapi/openai.go:113-147 | the handler writes one frame per heartbeat and event, and the two closing frames after the event that ends the answer |
| Sse.RoundTripIff | backend/internal/httpapi/openai.go:208-214 | the reader recovers the written payloads in order, heartbeats dropped, if and only if no payload contains a newline |
| Sse.EndToEnd | backend/internal/httpapi/openai.go:119-142 | for every cutting of the stream, the reader has delivered a prefix of what was sent at every moment and all of it at the end |
| Fallback.SplitFallbackChunk | backend/internal/httpapi/fallback.go:217-235 | the loop computes the specified chunks, full ones of the given size, or of 5 runes for a non-positive one |
| Fallback.ChunksCut | backend/internal/httpapi/fallback.go:217-235 | the chunks join to the text, are never empty or too long, and all but the last are full |
| Fallback.CutIsUnique | backend/internal/httpapi/fallback.go:217-235 | there is no other way to cut a text like that |
| Fallback.Attempt.Submit | backend/internal/httpapi/fallback.go:131-141 | one more submission with the next sequence number, which advances only on success |
| Fallback.Attempt.Emit | backend/internal/httpapi/fallback.go:202-215 | the chunks of a delta are submitted in order until one fails or the deadline passes |
| Fallback.RunFallbackResponder | backend/internal/httpapi/fallback.go:128-159 | whatever the service answers, the submissions are the first chunks numbered from 1, none follows a failure or, after the first, the deadline, all are made unless one fails or the deadline passes, and the request is finished exactly if something was stored |
| Fallback.CommitsWholeChunks | backend/internal/httpapi/fallback.go:128-159 | in every run of the service with arbitrary operations in between, the answer is exactly the stored first chunks, or the fallback has no part in it |
| Fallback.CodeFollows | backend/internal/httpapi/fallback.go:128-159 | submissions like those of the code follow the fallback's protocol in every run |
| Fallback.AttemptAnswer | backend/internal/httpapi/fallback.go:128-235 | in every such run the answer of an attempt that stored something is a prefix of the upstream text, in pieces of 1 to the maximum number of runes, and all of it if nothing failed |
| Fallback.OneAttemptAnswers | backend/internal/httpapi/fallback.go:97-125 | over the whole retry loop, where another attempt follows only one that stored nothing, the answer is exactly what the last attempt stored |
| Conversation.WaitForPersonaAnswer | backend/internal/persona/manager.go:302-338 | the first poll that does not find the request on its way decides: a non-empty answer of a human, a withdrawal of a follow-up queued too long, or giving up |
| Conversation.WaitExactly | backend/internal/persona/manager.go:313-331 | the first poll that does not find the request on its way decides exactly: an answer if a human completed it with something but white space to say, a withdrawal if it is queued too long, giving up otherwise |
| Conversation.TrimExactly | backend/internal/persona/manager.go:319-320 | trimming cuts off exactly the white space at both ends |
| Conversation.ExchangesExactly | backend/internal/persona/manager.go:272-300 | a round is an exchange exactly if it and all before it were answered, and each of those led to a follow-up whose responder could be resumed |
| Conversation.AfterAnswer | backend/internal/persona/manager.go:279-298 | whatever comes of an answered turn, its responder is resumed exactly once; a follow-up is posted exactly if there is a question, with the transcript extended by answer and question and for that responder, before the resumption; it is withdrawn after it exactly if its responder is gone |
| Conversation.ContinueQuestionConversation | backend/internal/persona/manager.go:272-300 | for all replies of the world: every responder that answered is resumed exactly once, in order; after one opening question every follow-up carries an odd, alternating transcript that ends with its own exchange and extends all earlier ones, and targets the responder of that exchange; withdrawn are exactly a question queued too long and a follow-up whose responder is gone |
| Conversation.ScriptWithdraws | backend/internal/persona/manager.go:293-331 | the withdrawals among all calls of the loop: at most one, the current request if its waiting ended late in the queue, or the follow-up just posted if its responder could not be resumed |
| Conversation.ScriptMeans | backend/internal/persona/manager.go:272-300 | the follow-ups among all calls of the loop are exactly those of its exchanges, and so are the resumptions |
| ConversationRuns.PollFindsAnswer | backend/internal/persona/manager.go:314-324 | the loop takes a poll for an answer exactly if a human has completed the request with something to say |
| ConversationRuns.SameResponder | backend/internal/persona/manager.go:279-289 | in every reachable state all turns of a conversation that anyone holds or has answered have the same responder |
| ConversationRuns.FullTranscript | backend/internal/persona/manager.go:280-289 | in a conversation whose follow-ups each extend the last transcript by their exchange, turn i asks with 2i+1 alternating messages, each earlier answer in its place |
| ConversationRuns.PersonaConversation | backend/internal/persona/manager.go:272-300 | for a conversation of any length with arbitrary operations between its steps and after it: one responder, full alternating transcripts |
| ConversationRuns.LoopHappens | backend/internal/persona/manager.go:272-300 | the verified loop's turns, with polls of the run's states and the loop's own calls carried out in the run, are such a conversation with the loop's own exchanges |
| ConversationRuns.LoopConversation | backend/internal/persona/manager.go:272-300 | so the verified loop, run among arbitrary operations, always has one responder, and each of its requests is stored with the loop's own full alternating transcript |

## Left out

- Registration checks, password hashing, tokens and log-in: library calls; only the new account with its grant, and the session fields, are modelled.
- HTTP routing, JSON encoding, WebSockets, CORS, static files and readiness probes: plumbing. The payload of an event is an arbitrary string, and that JSON encoding writes no newline is a precondition of `Sse.EndToEnd`.
- Decoding of bytes to characters in the browser's reader: the model starts from the decoded text of each read.
- Conversations, the board, categories and titles: would only add easy members.
- Persona posting counters and schedules, prompts and the trimming of a generated question: the next question is an arbitrary string.
- The client of the upstream model: an arbitrary list of deltas, with what arrived before a failure.
- Lock keys and their expiry in Redis beyond the script, crashes, Redis errors and failed transactions.
- Balances and one active request per responder in the distributed backend: its checks are spread over several statements and do not maintain them; both are proved for the in-memory service.
- The life of a responder's kind and preference hashes in the distributed model: a script run may read any kind and preference, and what it reads is part of the step. `Coordinator` says which entries a script run drops.
- InMemoryService.Service.Register: does not model validation of names and passwords, because it does not touch the state that the other operations share.
- RateLimiter.Limiter.AllowKey: computes over the reals, so it does not model floating-point rounding.
- Fallback.RunFallbackResponder: takes the answers of the service as a function of the submission number; the runs of the service in which such an attempt is embedded are the subject of `Fallback.AttemptAnswer`.
- The delays between fallback attempts and `FallbackStillWanted`: `Fallback.OneAttemptAnswers` is for attempts made at any time.
