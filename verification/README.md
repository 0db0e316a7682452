# A threshold randomness service, modelled and proved

The service gives contracts random words.  A consumer asks the coordinator contract; a group of
operators, any t of whom can sign for one public key, signs the request's seed; the coordinator checks
the signature, makes the words of it, pays whoever published it and calls the consumer back.  This
project models its three parts in Dafny and proves what each promises, over all inputs, all runs and
all interleavings, and what they promise together.

**The group signature.**  `ModArith`, `Polynomial`, `Blsvrf`, `Threshold`, `Session`, `Verifier`.
Splitting a secret, recombining shares, filing the partial signatures an adversary sends, and the
on-chain check.  Points of the curve groups are represented by their discrete logarithms, so the
pairing equation is an equation in a prime field; inverses in that field and the interpolation
theorems are proved from first principles.  Main results: any quorum recombines to the one signature
(`Threshold.QuorumSigns`, `Threshold.AnyPartialsSign`), t - 1 shares fit every secret in exactly one
way (`Threshold.EverySecretFits`, `Threshold.OneFitOnly`), a session never files or keeps anything
wrong, pays for at most one pairing per operator and holds exactly what the first point for each
index decides (`Session.AnyRun`, `Session.CostBound`, `Session.FiledIff`), and the verifier accepts
exactly one encoding of exactly one point (`Verifier.VRFVerifier.VerifyAccepts`,
`Verifier.VRFVerifier.BatchAccepts`).

**The contracts.**  `Accounts` and `Coordinator` give every external function of the two contracts
as a function on storage; `Rules` says, without those functions, exactly when each call goes through,
what it costs and what it changes.  `Reentrancy` executes whole transactions: wherever the contracts hand over
control, an arbitrary program of further calls runs, with its own nested foreign code, a bound on its
gas and a verdict, and a failing callback restores the state it was given.  `Invariants` says what
holds of both contracts.  `Always` proves, by induction on the tree of calls, what no order of events
breaks; `Focus` what holds of some requests and accounts as long as batches find those requests open,
whatever becomes of the others; `Executions` is the case of all of them at once.  `Promises` extends
these to every run of transactions from deployment.  `Tallies` counts over the tree of calls, rolled
back calls left out, by one induction; `Deliveries` counts accepted callbacks with it, `Authority` what
an account and the price list owe to those they answer to.  `BatchChecks` and `Batch` prove that an accepted
batch is its members one by one, `Guard` exactly which batches find their members open, and
`BatchWords` which words a batch hands out.  `SubscriptionContract` and `CoordinatorContract` are the
two contracts as objects whose methods update fields; each method is proved against the function on
storage, and `CoordinatorContract.VRFCoordinator.RunAll` ties the objects to the executions.
Main results:

- in every run, at every re-entry point, the ledger adds up and its indices agree
  (`Promises.LedgerAtEveryMoment`, `Promises.IndexAtEveryMoment`), and so do the promises on fees and
  ownership (`Promises.FeePromise`, `Promises.RenouncedForever`);
- every call goes through exactly under its stated condition (`Rules.AcceptedIff`), only owners use
  owners' rights, and without them an account's owner, offer and consumers stay and its balance moves
  exactly by deposits and settlements (`Rules.StrangersRefused`, `Authority.AccountSparedInRuns`);
- a request is charged the fees in force when it was made, and that never changes
  (`Rules.RequestRecords`, `Promises.ChargedAtEveryMoment`, `Promises.PriceForever`);
- a consumer that accepted its words is never called for that request again
  (`Deliveries.DeliveredOnce`), and what is recorded as delivered is what was accepted
  (`Deliveries.RunDelivers`, `Deliveries.AcceptedOnce`);
- in every run what is recorded of a request stays, a closed request stays closed the same way, and the
  words of a single fulfilment never differ between attempts (`Promises.RequestForever`,
  `Promises.SameWordsEveryTime`);
- a request is delivered at most once and its price accounted for exactly once
  (`Promises.RequestOutcome`), an account reserves exactly what its open requests cost
  (`Promises.ReservedAtEveryMoment`), and none of those is ever stuck (`Promises.NeverStuck`), provided
  that batches find that request, or that account's requests, open when they settle them.
  `Guard.GuardIff` says when they do: by a guard on the members' gas limits and ages that can be
  checked before the call, exact whatever the callbacks do.  What a batch does to other requests does
  not matter (`Guard.GuardedOutcome`, `Guard.GuardedReserved`).

**The operator node.**  `Scanning` (reading the log stream), `Nonces` (issuing transaction nonces),
`Memory` (bounded memories and the publishing rotation), `Publishing`, `PublishOnce` and `Progress`
(the handlers as threads, interleaved step by step), `Ceremony` (the nonce of a key ceremony).  Main
results: each logged request is announced as often as it is logged, in order, whatever fails
(`Scanning.Watch`), accepted transactions carry consecutive nonces over any interleaving
(`Nonces.AnySchedule`), one thread of a node at most ever gets to publish a request
(`PublishOnce.OnePublication`), and a session with enough shares does get published, as every handler
ends (`Progress.ReadyIsPassed`, `Progress.ReadyIsOffered`, `Progress.HandlersEnd`).

**Together.**  `Group.GroupAgrees` says that any two nodes, whatever reached them, offer the very same
signature; `Group.NodeFulfils` follows it through the verifier into the coordinator, in any state in which
that request and its account are in order, and `Group.NodeIsPaid` on to the flag and the credit: one publication
takes effect, whoever repeats it.  `Group.ReadyNodeFulfils` starts from the shares: a session that has
enough of them ends in a call the coordinator accepts.

How the state machines are built: in `Publishing` one step of a thread is what the source does while
it holds one mutex, or one answer from outside; a session is a cell on a heap, so that handlers keep
working on one the node has already forgotten.  In `Nonces` other calls move between any two steps
of the one that holds the mutex, and the chain may take a transaction and report a failure.

Premises, stated where they are used: request ids do not collide and points have one encoding
(`Invariants.Premises`), the number of commitments is the threshold and operator indices fit the
field (`PublishOnce.Deployed`), all coin together fits 96 bits and block numbers 64 bits
(`Promises.Deployed`), hashes of signatures do not collide (`BatchWords.HashesDiffer`, used for the
words of a batch only), and, where said, batches find the requests in question open when they settle
them (`Focus.OpenFor`), which batches that guard those requests always do (`Guard.GuardedRun`).

Where the code and its own words part, the model follows the code:

- `node/internal/chain/chain.go:569-571` promises that every block is covered exactly once.  Its loop
  does so exactly when the step past the last span does not wrap around 64 bits (`Scanning.CoversIff`,
  `Scanning.NeverEnds`); the methods ask for it.
- `node/internal/node/node.go:365-367` says the parked shares are bounded in both directions, and so
  they are for any group (`Memory.AlwaysBounded`).  But without an operator the order would go on
  listing keys that are not held: it agrees with the map exactly when there is one
  (`Memory.ParkKeepsIff`).
- `docs/operator.md:255` asks for byte-identical ceremony settings.  The nonce does not depend on the
  order in which members are listed (`Ceremony.AnyOrderSameBytes`, `Ceremony.OneNonce`).
- `src/VRFCoordinator.sol:414-420` argues that a batch is safe against a callback that retries a later
  member.  A callback that refunds or fulfils a later member is a different matter: `Guard.GuardIff`
  gives the exact condition under which none can, `Guard.ClosedTwice` and `Guard.PaidTwice` inputs on
  which one does, without and with money at stake.
- `src/VRFCoordinator.sol:14-15` and `489-491` say that nobody can bring a different result, and that a
  request was always going to get one set of words.  That holds of fulfillRandomWords and
  retryCallback.  A batch's words are made of the aggregate signature, so they depend on which requests
  its publisher put together; they are the request's own exactly when the other members' hashed seeds
  sum to zero (`BatchWords.BatchWordsIff`, `BatchWords.TwoMembersWords`).

## Model

| member | source | states |
|---|---|---|
| Threshold.SplitSecret | offchain/src/threshold.ts:28-49 | fails exactly when t < 1 or t > n; otherwise share k is the value at k of the polynomial with this constant term and these coefficients, indices 1 to n |
| Threshold.HornerAt | offchain/src/threshold.ts:42-45 | the Horner loop computes the value of the polynomial in the field |
| Threshold.LagrangeCoefficients | offchain/src/threshold.ts:63-75 | fails exactly on a repeated index; otherwise gives the weight at zero of each index, in order |
| Threshold.Aggregate | offchain/src/threshold.ts:84-94 | an empty list and a repeated index are refused; otherwise the weighted sum of the partial signatures |
| Threshold.GroupPublicKey | offchain/src/threshold.ts:100-109 | the same recombination applied to the public keys of the shares |
| Polynomial.LagrangeAtZero | offchain/src/threshold.ts:63-75 | weights at distinct points recombine the values of every polynomial of no more coefficients than points to its constant term |
| Threshold.QuorumSigns | offchain/src/threshold.ts:28-94 | for every dealt secret, any shares at least as many as the threshold, in any order, sign to exactly secret times the message |
| Threshold.QuorumKey | offchain/src/threshold.ts:100-109 | ... and their public keys recombine to the public key of the secret |
| Threshold.EverySecretFits | offchain/src/threshold.ts:28-49 | t - 1 shares fit every secret: for any values at t - 1 distinct non-zero indices some coefficients produce them |
| Threshold.OneFitOnly | offchain/src/threshold.ts:28-49 | ... and only one choice of coefficients does, so shares and coefficients correspond one to one for each secret |
| ModArith.Inv | offchain/src/threshold.ts:71-71 | every non-zero field element has an inverse, computed by the extended Euclidean algorithm and proved to be one |
| Threshold.AggregateShares | node/internal/threshold/threshold.go:25-41 | too few and repeated indices are refused, in that order; otherwise the library recombines whichever shares it picks |
| Threshold.AnyPartialsSign | node/internal/threshold/threshold.go:25-41 | any partial signatures that verify, at least as many as there are commitments, in any order and whichever are picked, give one value: the constant term signing the seed |
| Blsvrf.Suite.VerifyIffSigned | node/internal/blsvrf/blsvrf.go:64-69 | the pairing check accepts a point exactly when it is the one signature of that key on that seed |
| Blsvrf.Suite.PartialIffSigned | node/internal/blsvrf/blsvrf.go:142-144 | a partial passes exactly when it is the one the share of that operator makes |
| Session.Session.AddPartial | node/internal/session/session.go:73-108 | Add as a method on the session fields: result and new state for every branch, and the invariant below |
| Session.Session.RecordEquivocation | node/internal/session/session.go:118-123 | evidence once recorded is never overwritten |
| Session.Session.Aggregated | node/internal/session/session.go:137-154 | too few partials are refused; otherwise, in whatever order the map is iterated, the result is the group signature |
| Session.AddKeepsInv | node/internal/session/session.go:73-108 | what is filed verifies for its own index and is never replaced; recorded evidence has a first point that verifies and a different second that does not; a pairing is paid for exactly when an index is tried for the first time |
| Session.AnyRun | node/internal/session/session.go:73-108 | the same over any sequence of calls, with the number of pairings for each index: one if it was tried in the run, none otherwise |
| Session.FiledIff | node/internal/session/session.go:73-108 | after any calls on a fresh session what is filed for an index is told by the first point that arrived for it: that point if it verifies, and otherwise nothing, however many follow |
| Session.AnswerIs | node/internal/session/session.go:73-108 | what Add answers after any calls is told by the first point that arrived for the index: filed, not needed, conflicting, spent, not verified, or refused beforehand |
| Session.EvidenceIs | node/internal/session/session.go:73-108 | a session holds the evidence of the first conflict, and none when no point differs from a filed one |
| Session.CostBound | node/internal/session/session.go:112-116 | pairings over any sequence of calls never exceed the number of operators |
| Session.ReadySessionSigns | node/internal/session/session.go:137-154 | every ready session, whatever it holds and however its map is read, yields the constant term of the commitments signing its seed |
| Verifier.VRFVerifier.VerifyBatch | src/VRFVerifier.sol:89-127 | the accumulating loop decides the batch equation over the sum of the hashed seeds |
| Verifier.VRFVerifier.VerifyAccepts | src/VRFVerifier.sol:64-86 | accepted if and only if the signature is the canonical encoding of sk times H(seed) and that is not infinity |
| Verifier.VRFVerifier.BatchAccepts | src/VRFVerifier.sol:89-127 | accepted if and only if there is a seed and the signature encodes the non-infinite sk times the sum of the hashed seeds |
| Verifier.VRFVerifier.BatchUnique | src/VRFVerifier.sol:89-127 | permuting the seeds changes nothing, and a multiset of seeds has at most one accepted signature |
| Verifier.VRFVerifier.SameSignatureIff | src/VRFVerifier.sol:89-127 | the signature of a batch is that of one seed exactly when the hashed seeds sum to that seed |
| Verifier.VRFVerifier.BatchOfOne | src/VRFVerifier.sol:64-127 | a batch of one seed is verify |
| Verifier.VRFVerifier.BatchOfValid | src/VRFVerifier.sol:89-127 | the sum of individually valid signatures is accepted exactly when it is not infinity |
| Accounts.CreateKeeps | src/Subscription.sol:115-122 | the caller owns a new live id, nothing else changes, and the ledger invariant is kept: coin is balances plus credits, reserved within balance, index, owners and consumer lists in agreement |
| Accounts.FundKeeps | src/Subscription.sol:127-146 | a deposit goes to a live account, onto its balance and nowhere else, and keeps it |
| Accounts.WithdrawFromKeeps | src/Subscription.sol:161-172 | only the owner withdraws, at most what is not reserved, from that balance alone, leaving exactly the amount still to be sent on |
| Accounts.AddConsumerKeeps | src/Subscription.sol:174-180 | only the owner adds, and adds just that consumer; list and set stay in agreement |
| Accounts.RemoveConsumerKeeps | src/Subscription.sol:182-196 | only the owner removes, and removes just that consumer, also across the swap with the last element |
| Accounts.SwapRemoveIs | src/Subscription.sol:182-196 | swap and pop removes that consumer, keeps every other, and repeats nobody |
| Accounts.DeactivateKeeps | src/Subscription.sol:400-412 | after the swap and pop the list holds exactly the live ids, without repeats, each indexed at its position plus one |
| Accounts.CancelKeeps | src/Subscription.sol:202-219 | only the owner closes, with nothing reserved; the whole balance is paid out, no offer and no index stay behind, other accounts are untouched, and the id stays dead |
| Accounts.OfferKeeps | src/Subscription.sol:226-232 | only the owner offers; the offer is recorded, no other changes, and it belongs to a live account |
| Accounts.AcceptKeeps | src/Subscription.sol:235-243 | only whoever was offered becomes the owner, the rest of the account stays, the offer is gone, and every agreement of the ledger is kept |
| Accounts.WithdrawKeeps | src/Subscription.sol:286-292 | a payee takes exactly its credit, which becomes zero; no other credit changes |
| Accounts.ReserveKeeps | src/Subscription.sol:247-256 | one more pending request and exactly its price more reserved, within the balance, which stays |
| Accounts.ReleaseKeeps | src/Subscription.sol:258-263 | exactly the price less reserved, the balance unchanged, and one pending request less, if any is counted |
| Accounts.SettleKeeps | src/Subscription.sol:268-276 | a settlement that goes through moves exactly the price from the account to the payee, with coin unchanged |
| Accounts.SettleFits | src/Subscription.sol:268-276 | under the invariant no subtraction in settle underflows, the credit fits 96 bits, and a reservation that is there can always be settled |
| SubscriptionContract.Subscription.CreateSubscription | src/Subscription.sol:115-122 | the object does what the function on ledgers says, field by field |
| SubscriptionContract.Subscription.FundSubscription | src/Subscription.sol:127-146 | same, with every refusal |
| SubscriptionContract.Subscription.WithdrawFromSubscription | src/Subscription.sol:161-172 | same, up to the transfer |
| SubscriptionContract.Subscription.AddConsumer | src/Subscription.sol:174-180 | same |
| SubscriptionContract.Subscription.RemoveConsumer | src/Subscription.sol:182-196 | the scan with swap and pop is removal at the first occurrence |
| SubscriptionContract.Subscription.CancelSubscription | src/Subscription.sol:202-219 | same, up to the transfer |
| SubscriptionContract.Subscription.Deactivate | src/Subscription.sol:400-412 | the swap and pop on the two fields |
| SubscriptionContract.Subscription.Reserve | src/Subscription.sol:247-256 | same; refused to anyone but the coordinator |
| SubscriptionContract.Subscription.Release | src/Subscription.sol:258-263 | same |
| SubscriptionContract.Subscription.Settle | src/Subscription.sol:268-276 | same |
| SubscriptionContract.Subscription.Withdraw | src/Subscription.sol:286-292 | same, up to the transfer |
| Always.PlainKeeps | src/Subscription.sol:115-292 | every call that is not about a request keeps the money, the indices, prices and ownership, and touches no request or reservation |
| Always.SettleCarries | src/VRFCoordinator.sol:462-480 | settling any request that goes through, open or not, keeps them and touches no other request |
| Always.RefundCarries | src/VRFCoordinator.sol:532-541 | so does a refund |
| Always.EveryEntry | src/VRFCoordinator.sol:222-541 | every external function, up to where foreign code takes over, keeps them; it leaves closed requests closed as they were, and shielded ones untouched |
| Always.EveryCall | src/VRFCoordinator.sol:222-631 | one call with any tree of calls below it, batches included whatever their callbacks close: money, indices, prices and ownership hold at every moment, and what is recorded of a request never changes |
| Always.EveryProgram | src/VRFCoordinator.sol:222-631 | the same for any program of calls |
| Invariants.SettlesIf | src/VRFCoordinator.sol:462-480 | settling an open request goes through whenever its own account has reserved what its open requests cost |
| Invariants.RefundsIf | src/VRFCoordinator.sol:532-541 | refunding it then goes through exactly past its timeout |
| Focus.RequestHolds | src/VRFCoordinator.sol:296-349 | a recorded request has a fresh id and is charged the current base fee, word fee per word and gas fee per unit of gas; requests in question stay in order and accounts in question reserve exactly what their open requests cost |
| Focus.SettleHolds | src/VRFCoordinator.sol:462-480 | so does settling an open request, or any request outside the question; it is credited once at its price |
| Focus.RefundHolds | src/VRFCoordinator.sol:532-541 | so does a refund: released once |
| Focus.DeliverHolds | src/VRFCoordinator.sol:395-396 | so does recording a first delivery |
| Focus.AnyEntry | src/VRFCoordinator.sol:222-541 | every external function, up to the hand-over, keeps the requests and accounts in question, and hands a request over undelivered, under its own gas limit, to code that cannot deliver it again |
| Focus.FocusCall | src/VRFCoordinator.sol:222-631 | one call with any tree of re-entrant calls keeps the requests and accounts in question at every moment, and changes none sealed against its gas bound, provided batches find those requests open; what batches do to others does not matter |
| Focus.FocusProgram | src/VRFCoordinator.sol:222-631 | the same for any program of calls |
| Focus.FocusMembers | src/VRFCoordinator.sol:454-480 | the same for the members of a batch, one after the other |
| Executions.OneCall | src/VRFCoordinator.sol:222-631 | all requests and accounts at once: every invariant of both contracts at every moment of a call |
| Executions.AllCalls | src/VRFCoordinator.sol:222-631 | the same for any program of calls |
| Executions.SettleRequestKeeps | src/VRFCoordinator.sol:462-480 | settling an open request never fails and keeps every invariant |
| Executions.RefundKeeps | src/VRFCoordinator.sol:532-541 | refunding one past its timeout never fails and keeps every invariant |
| Executions.BeginningAndEnd | src/VRFCoordinator.sol:222-631 | the moments of any program, which the results below speak of, include its first and its last state |
| Executions.HandOverIsThere | src/VRFCoordinator.sol:622-631 | ... everything that runs inside a hand-over, and the words a consumer is handed |
| Executions.BatchlessIsOpen | src/VRFCoordinator.sol:425-457 | programs without fulfillBatch meet the premise on batch members for any requests |
| Promises.EveryRun | src/VRFCoordinator.sol:187-541 | over any run of transactions: money, indices, prices and ownership hold at every moment, and what is recorded of a request never changes |
| Promises.RunFocus | src/VRFCoordinator.sol:187-541 | over any run of transactions: requests and accounts in question are in order at every moment, provided batches find those requests open |
| Promises.LedgerAtEveryMoment | src/Subscription.sol:115-292 | in every run from deployment, wherever foreign code is in control: coin is balances plus credits, reserved is within the balance, and no coin is made or lost |
| Promises.ReservedAtEveryMoment | src/VRFCoordinator.sol:296-541 | at every moment of every run what an account has reserved is the sum of its open requests prices and pending is their number, provided batches find the requests of that account open |
| Promises.RequestOutcome | src/VRFCoordinator.sol:296-541 | in every run a request is delivered at most once, closed in at most one way, and its price is still reserved, credited once or released once, provided batches find that one request open when they settle it |
| Promises.InvAtEveryMoment | src/VRFCoordinator.sol:296-541 | every invariant of both contracts at every moment of a run whose batches find all their members open |
| Promises.RequestForever | src/VRFCoordinator.sol:296-541 | in every run recorded fields never change, flags are only ever set, and a closed request stays closed the same way with its price where it went |
| Promises.SameWordsEveryTime | src/VRFCoordinator.sol:365-529 | in every run fulfillRandomWords and every retryCallback hand a consumer the same words |
| Promises.RefundNeverReverts | src/VRFCoordinator.sol:532-541 | an open request whose account has reserved what its open requests cost can be refunded if and only if its timeout has passed |
| Promises.FulfillNeverReverts | src/VRFCoordinator.sol:365-399 | ... and its fulfilment is refused only for want of gas or of the right signature |
| Promises.NeverStuck | src/VRFCoordinator.sol:365-541 | both hold of every open request at every moment of every run, provided batches find the requests of its account open |
| Promises.FulfilHolds | src/VRFCoordinator.sol:365-399 | a fulfilment that takes effect leaves the request fulfilled and the publisher credited once at its price, whatever the callback does |
| Promises.FulfilledOnce | src/VRFCoordinator.sol:365-399 | after one fulfilment took effect every other one is refused, in every later run |
| Promises.DeadForever | src/Subscription.sol:202-219 | a cancelled id is never live again |
| Promises.IndexAtEveryMoment | src/Subscription.sol:115-243 | wherever foreign code is in control the list of live ids, its index, pending owners and consumer lists agree |
| Promises.FeePromise | src/VRFCoordinator.sol:222-293 | in every run the price in effect is that of the latest applied proposal, within its caps and applied at least 50,400 blocks after it was made, or the first one if none was applied |
| Promises.RenouncedForever | src/VRFCoordinator.sol:263-293 | after renouncement no owner returns and prices never change |
| Promises.BatchlessRun | src/VRFCoordinator.sol:425-457 | runs without fulfillBatch meet the premise on batch members for any requests |
| BatchChecks.AcceptedIds | src/VRFCoordinator.sol:434-447 | what the first loop accepts is strictly ascending, hence without repeats, and all open |
| BatchChecks.AcceptsIds | src/VRFCoordinator.sol:434-447 | ... and it accepts every such list |
| Batch.RefusedBatch | src/VRFCoordinator.sol:425-457 | a batch refused by its checks changes nothing and calls nobody; one that fails while settling changes nothing |
| Batch.BatchIsSingles | src/VRFCoordinator.sol:425-480 | an accepted batch that finds its members open at their turns leaves exactly the state that fulfilling them one by one leaves; only its members and their accounts matter |
| Batch.MembersCredited | src/VRFCoordinator.sol:462-480 | each member ends fulfilled and credited to the caller once, at its recorded price |
| Batch.BatchPays | src/VRFCoordinator.sol:462-480 | with callbacks that make no calls the caller is credited exactly the sum of the prices |
| Batch.BatchCredits | src/VRFCoordinator.sol:462-480 | whatever the callbacks do, what the members credit to the caller is the sum of their prices |
| Guard.ShieldedUntouched | src/VRFCoordinator.sol:365-541 | an open request before its timeout is untouched by any tree of calls that holds less gas than fulfilling it takes |
| Guard.GuardIff | src/VRFCoordinator.sol:425-457 | an accepted batch finds each member in question open at its turn, whatever its callbacks do, if and only if that member passes the guard against every earlier one: the earlier limit is below the gas the later one needs, and the later one is not past its timeout |
| Guard.ClosedTwice | src/VRFCoordinator.sol:425-457 | an input on which an unguarded batch goes wrong: a free, timed-out later member, refunded by the earlier callback, ends both refunded and fulfilled |
| Guard.PaidTwice | src/VRFCoordinator.sol:425-457 | and one that was paid for: afterwards its account has less in reserve than its open requests cost, and the other open request on it can be neither refunded nor settled |
| Guard.SettlesSoundlyIffOpen | src/VRFCoordinator.sol:462-480 | settling a member accounts for its price once if and only if the member is open at that moment |
| Guard.GuardedRun | src/VRFCoordinator.sol:425-457 | in runs whose batches guard certain requests, batches find those requests open |
| Guard.GuardedOutcome | src/VRFCoordinator.sol:296-541 | a request that every batch it is put in guards against the members before it is closed once, delivered at most once, and its price accounted for once, whatever other batches do |
| Guard.GuardedReserved | src/VRFCoordinator.sol:296-541 | an account whose requests every batch guards has reserved exactly what its open requests cost, at every moment |
| BatchWords.BatchWordsIff | src/VRFCoordinator.sol:453-470 | a member of a batch gets the words of its own signature if and only if the hashed seeds of the batch sum to its own |
| BatchWords.BatchOfOneWords | src/VRFCoordinator.sol:453-470 | a batch of one carries the words of the request itself |
| BatchWords.TwoMembersWords | src/VRFCoordinator.sol:453-470 | of two members the second gets its own words only if the seed of the first hashes to infinity: the input on which words differ |
| Rules.AcceptedIff | src/VRFCoordinator.sol:222-541 | a call of any external function of either contract goes through exactly under its stated condition on the state: among them owner calls by the owner alone, requests by a listed consumer that fit the limits and the balance, a batch with ascending open members, the gas of all of them and the right signature |
| Rules.StrangersRefused | src/Subscription.sol:102-105 | each of the five owner functions refuses anyone but the owner by that error, and the whole call changes nothing |
| Rules.OutsidersRefused | src/VRFCoordinator.sol:182-185 | so do the four functions reserved to the owner of the coordinator |
| Rules.EveryGoverning | src/VRFCoordinator.sol:222-293 | what each function about prices and ownership changes, and that all others change neither |
| Rules.PriceIs | src/VRFCoordinator.sol:549-557 | the quote is the total of base fee, word fees and gas fees, or PriceOverflow exactly when that exceeds 2^96 - 1 |
| Rules.CostParts | src/VRFCoordinator.sol:549-557 | that total is the base fee for nothing, grows by the word fee for one more word and by the gas fee for one more unit of gas |
| Rules.CostIsOnly | src/VRFCoordinator.sol:549-557 | ... and no other function of words and gas does |
| Rules.OverflowIff | src/VRFCoordinator.sol:549-557 | a request is refused for its price exactly when it is well formed, comes from a listed consumer, and the total exceeds 2^96 - 1 |
| Rules.RequestRecords | src/VRFCoordinator.sol:296-349 | an accepted request comes from a listed consumer, records and reserves exactly that total, at most the total at the caps, and changes nothing but its ticket, its nonce and its account |
| Rules.SettleRecords | src/VRFCoordinator.sol:462-480 | a settlement takes the recorded price from balance and reservation of its account to the publisher, and nothing else moves |
| Rules.RefundRecords | src/VRFCoordinator.sol:532-541 | a refund releases the recorded price of an open request past its timeout, and nothing else moves |
| Rules.CallbackBudget | src/VRFCoordinator.sol:373-377 | the gas asked for covers the callback limit after one 64th is held back, and is within one unit of the least that the formula allows |
| Promises.ChargedAtEveryMoment | src/VRFCoordinator.sol:296-349 | at every moment of every run each request on record was charged the total at the fees in force in the block it was made in, so at most the total at the caps |
| Promises.PriceForever | src/VRFCoordinator.sol:296-349 | a request made in a state is charged the total at the fees of that very state, and so it stays in every later run |
| Deliveries.DeliveryRecorded | src/VRFCoordinator.sol:508-529 | a fulfilment or retry that reaches the consumer: if it accepts, the request is marked delivered and one more delivery counted; if it fails, both stay as they were; whatever happens below the call |
| Deliveries.BatchFrame | src/VRFCoordinator.sol:439-447 | in an accepted batch each consumer called back runs in a frame bounded by just its own gas limit |
| Deliveries.FailureUndone | src/VRFCoordinator.sol:622-631 | a failing callback leaves the state it was handed, a failing receiver of a transfer leaves the state before the call |
| Deliveries.DeliveredOnce | src/VRFCoordinator.sol:508-529 | once a consumer has accepted, every retry and fulfilment of its request is refused in every later run |
| Deliveries.ProgramDelivers | src/VRFCoordinator.sol:365-529 | over any program the recorded deliveries of a request grow by the callbacks its consumer accepted, counted on the tree of calls |
| Deliveries.RunDelivers | src/VRFCoordinator.sol:365-529 | the same over any run |
| Deliveries.AcceptedOnce | src/VRFCoordinator.sol:365-529 | in every run the consumer accepts at most one callback of a request, and one exactly when the contract says so, provided batches find that request open |
| Tallies.RunMoves | src/VRFCoordinator.sol:222-631 | the induction behind such counts: a measure that every step of the contracts moves by what a meter reads is moved by every run by the total on its tree of calls, rolled back calls left out |
| Authority.AccountSpared | src/Subscription.sol:102-243 | over any tree of calls in which the owner of an account does not use its rights and the offered address does not accept: owner, offer and consumers stay, and the balance changes exactly by deposits and by what its requests have paid |
| Authority.AccountSparedInRuns | src/Subscription.sol:102-243 | the same over any run |
| Authority.PricesSpared | src/VRFCoordinator.sol:222-293 | over any run without acts of the owner of the coordinator or of the address it is offered to: owner, offer and proposals stay, and prices change at most to the proposal that was waiting, after its notice |
| CoordinatorContract.VRFCoordinator.ProposeFees | src/VRFCoordinator.sol:222-238 | the object against the function on states, with every refusal |
| CoordinatorContract.VRFCoordinator.ApplyFees | src/VRFCoordinator.sol:243-253 | same |
| CoordinatorContract.VRFCoordinator.RenounceOwnership | src/VRFCoordinator.sol:281-286 | same |
| CoordinatorContract.VRFCoordinator.RequestRandomWords | src/VRFCoordinator.sol:296-349 | same; nonces, ticket and reservation together or not at all |
| CoordinatorContract.VRFCoordinator.FillWords | src/VRFCoordinator.sol:365-399 | the loop computes word i from the signature, the id and i |
| CoordinatorContract.VRFCoordinator.FulfillRandomWords | src/VRFCoordinator.sol:365-399 | same, with the callback run as a nested program |
| CoordinatorContract.VRFCoordinator.CheckMembers | src/VRFCoordinator.sol:425-457 | the first loop finds the first error in order, or none |
| CoordinatorContract.VRFCoordinator.FulfillBatch | src/VRFCoordinator.sol:425-457 | all members in order, or nothing |
| CoordinatorContract.VRFCoordinator.RetryCallback | src/VRFCoordinator.sol:508-529 | same, with the callback run as a nested program |
| CoordinatorContract.VRFCoordinator.Refund | src/VRFCoordinator.sol:532-541 | same |
| CoordinatorContract.VRFCoordinator.Pay | src/Subscription.sol:414-418 | nobody is called for zero; a refusing receiver fails the call |
| CoordinatorContract.VRFCoordinator.constructor | src/VRFCoordinator.sol:187-212 | deployment starts in the first state of every run, valid |
| CoordinatorContract.VRFCoordinator.Transact | src/VRFCoordinator.sol:365-541 | one call on the object, foreign code included, leaves exactly what the execution function says; a refused call leaves nothing |
| CoordinatorContract.VRFCoordinator.RunAll | src/VRFCoordinator.sol:365-541 | the same for any program, so everything proved of executions holds of the object, which stays valid and keeps its coin |
| Scanning.ChunkRange | node/internal/chain/chain.go:572-585 | one span if the range fits, otherwise consecutive spans of at most max blocks that cover the range, each block once, as many as needed; no span exceeds the limit if and only if the range is not all of uint64 |
| Scanning.CoversIff | node/internal/chain/chain.go:572-585 | the loop on uint64 covers the range, each block once, if and only if its step past the last span does not wrap around |
| Scanning.WrapBreaks | node/internal/chain/chain.go:572-585 | ... otherwise it never ends, or some span runs backwards or leaves the order |
| Scanning.NeverEnds | node/internal/chain/chain.go:572-585 | a concrete range on which it never ends |
| Scanning.FitsBelow | node/internal/chain/chain.go:572-585 | from <= to and to + max < 2^64 suffice |
| Scanning.LogsCount | node/internal/chain/chain.go:166-212 | each log is among the logs of a range as often as the blocks of the range hold it together |
| Scanning.LogsInPlace | node/internal/chain/chain.go:166-212 | the logs of a range hold the logs of each block, whole, in place after those of all earlier blocks |
| Scanning.RequestsCount | node/internal/chain/chain.go:196-210 | the requests read are those logged, each as often as it was; likewise settled ids |
| Scanning.ReadsAll | node/internal/chain/chain.go:196-210 | ... and in the order logged: a request logged at an earlier position comes earlier |
| Scanning.Decode | node/internal/chain/chain.go:191-211 | the loop over the logs fails exactly on a request that does not decode |
| Scanning.EventsBetween | node/internal/chain/chain.go:166-212 | fails exactly when a call is refused or a log does not decode; otherwise each request and each settled id as often as the range logs it, in that order |
| Scanning.PollOnce | node/internal/chain/chain.go:286-310 | a poll that fails hands out nothing and keeps its place; one that succeeds hands out just the new blocks, settled ids first, and moves past its head |
| Scanning.Watch | node/internal/chain/chain.go:271-331 | over any heads, also ones that go back, and any failures: each request logged from the start up to the loop position has been announced exactly as often as it was logged, in that order, and nothing else; the same of settled ids |
| Scanning.NeverAhead | node/internal/chain/chain.go:271-331 | the loop never goes back, and is always where it began or just past a head it was told |
| Scanning.CatchesUp | node/internal/chain/chain.go:271-331 | a poll without a refused call moves the loop past its head, if every request up to there decodes |
| Scanning.HeldUp | node/internal/chain/chain.go:271-331 | a request that does not decode holds the loop up at its block, whatever the polls |
| Nonces.SendOutcome | node/internal/chain/chain.go:488-539 | one uninterrupted send reports success exactly when it had a key, fees, a nonce and a signature and its transaction was accepted; the chain then holds it, also when only the answer was lost, and otherwise not; a failed submission drops the counter |
| Nonces.StepKeepsInv | node/internal/chain/chain.go:488-539 | every step of every interleaved send keeps: the mutex has one holder, a counter in use is the pending count outside it, taken nonces are consecutive, reported ones differ |
| Nonces.AnySchedule | node/internal/chain/chain.go:214-231 | over any interleaving and any failures, also hidden acceptances: the chain has taken consecutive nonces, each once; whenever the mutex is free a counter in use equals the pending count |
| Nonces.SendLeavesPending | node/internal/chain/chain.go:488-539 | one uninterrupted send leaves a counter in use at the pending count, and reports no other nonce than that |
| Nonces.UninterruptedRuns | node/internal/chain/chain.go:488-539 | the sequential send is the interleaving machine run by one thread |
| Nonces.Client.ReserveNonce | node/internal/chain/chain.go:220-231 | asks the chain only when there is no counter to trust |
| Nonces.Client.Send | node/internal/chain/chain.go:488-539 | the object does what the machine does for one thread, in every case of failure |
| Memory.Memory.ParkShare | node/internal/node/node.go:368-385 | the new map and order as a function of the old |
| Memory.Memory.TakeParked | node/internal/node/node.go:388-404 | hands back what was held and removes the key from map and order |
| Memory.Memory.OnFulfilled | node/internal/node/node.go:527-540 | the new set and order as a function of the old |
| Memory.ParkKeepsIff | node/internal/node/node.go:368-385 | parking keeps order and map in agreement if and only if there is at least one operator, and all bounds in any case |
| Memory.AlwaysBounded | node/internal/node/node.go:368-404 | in every run, for any number of operators, at most 256 keys are held, listed and at most operators shares for each |
| Memory.TakeKeeps | node/internal/node/node.go:388-404 | taking keeps them and touches no other key |
| Memory.HeldOldestFirst | node/internal/node/node.go:368-404 | in any run of parking and taking keys are held in order of arrival |
| Memory.EvictsTheOldest | node/internal/node/node.go:368-385 | a new key that finds the memory full drives out exactly the key held longest |
| Memory.HoldsFirstOffers | node/internal/node/node.go:368-404 | what is held for a key is the first shares offered since it came in, at most as many as operators |
| Memory.SettleKeeps | node/internal/node/node.go:527-540 | the set of finished requests equals its order, without repeats, at most 10,000 |
| Memory.RemembersRecent | node/internal/node/node.go:527-546 | in any run of reports the memory is the last 10,000 recorded ids, oldest first |
| Memory.RankIs | node/internal/node/node.go:558-565 | the rank of an operator is k exactly when its index lies k past the id, modulo the number of operators |
| Memory.EveryRankOnce | node/internal/node/node.go:558-565 | for each request every rank is held by exactly one operator |
| Memory.EveryTurnOnce | node/internal/node/node.go:558-565 | over as many consecutive ids as operators, each operator has each rank exactly once |
| PublishOnce.EffectKeeps | node/internal/node/node.go:368-552 | everything a handler does to the shared state keeps: sessions sound, gate log without repeats, calls of Fulfill within budget and correctly signed |
| PublishOnce.OthersStand | node/internal/node/node.go:168-340 | a step of one handler leaves what every other relies on |
| PublishOnce.GateMoves | node/internal/node/node.go:433-438 | the test-and-set gives the right to publish for an id to the thread that finds it free |
| PublishOnce.AggregatingMoves | node/internal/node/node.go:440-445 | past the gate aggregation never fails and gives the group signature on the seed of the session |
| PublishOnce.StepKeeps | node/internal/node/node.go:168-552 | every step of every interleaving keeps the invariant |
| PublishOnce.OnePublication | node/internal/node/node.go:426-523 | over all interleavings each id passes the gate at most once, also after forget and a repeated announcement; Fulfill is called and the chain takes a transaction at most SendRetries + 1 times for it, also where replies are lost, and success is reported at most once |
| PublishOnce.OnlyGroupSignatures | node/internal/node/node.go:168-523 | every signature offered for an id is the group signature on a seed derived for that id |
| PublishOnce.MemoriesBounded | node/internal/node/node.go:368-540 | in every interleaving both memories stay bounded and listed without repeats |
| Progress.PassesGate | node/internal/node/node.go:426-438 | a handler that finds its session ready has seen to the gate after its own next two steps, whatever others do before, between and after |
| Progress.AloneOffers | node/internal/node/node.go:426-523 | unless settled, cancelled or closed, such a handler offers the chain the group signature in seven or eight steps of its own and changes nothing else but the gate |
| Progress.ReadyIsPassed | node/internal/node/node.go:168-340 | in any run, once every handler has ended, the gate has been passed for the request of every session that holds enough shares |
| Progress.ReadyIsOffered | node/internal/node/node.go:426-523 | ... and if nobody else settles the request, nothing is cancelled and the chain says it is open, Fulfill has been called for it with the group signature |
| Progress.HandlersEnd | node/internal/node/node.go:168-340 | in any run the handlers make no more steps than their number times a bound fixed by the configuration |
| Progress.CanFinish | node/internal/node/node.go:168-340 | from any run on, the handlers at work can all end in favourable steps of their own: nobody is ever stuck |
| Progress.AnnouncedIsShared | node/internal/node/node.go:168-253 | a truly announced request not reported settled has, once every handler has ended, a session in which the own share was tried |
| Progress.PeerShareFiled | node/internal/node/node.go:262-303 | a share for an announced request with the right seed is filed in its session |
| Progress.PeerShareHeld | node/internal/node/node.go:262-303 | one for a request not announced yet is held behind those held before |
| Progress.HeldIsFiled | node/internal/node/node.go:215-228 | the announcement files everything held that carries the right seed, in the order it came |
| Progress.CallsCarryGas | node/internal/node/node.go:162-171 | every call of Fulfill for a request carries the gas limit it was announced with |
| Group.GroupAgrees | node/internal/node/node.go:168-523 | any two nodes of a group, each with any history, offer the very same signature for one seed |
| Group.VerifierAcceptsNode | src/VRFVerifier.sol:64-86 | the verifier with the key of the group accepts what a node offers, unless it is infinity, and nothing else for that seed |
| Group.NodeFulfils | src/VRFCoordinator.sol:365-399 | an open request is fulfilled by what any node offers for it whenever the gas suffices, and by no other signature |
| Group.NodeIsPaid | src/VRFCoordinator.sol:365-399 | ... it leaves the request fulfilled and the publisher credited once at its price, and no later publication by any node takes effect |
| Group.ReadyNodeFulfils | src/VRFCoordinator.sol:365-399 | once the handlers of a node have ended undisturbed, a session with enough shares has produced the call that the coordinator accepts for its open request, unless the signature is infinity |
| Ceremony.SessionNonce | node/internal/dkg/nonce.go:16-39 | the hash of the prefix, the epoch and the sorted encodings; fails exactly when a key does not marshal |
| Ceremony.SortedOnce | node/internal/dkg/nonce.go:29-29 | byte strings have one sorted arrangement, so how they are sorted does not matter |
| Ceremony.AnyOrderSameBytes | node/internal/dkg/nonce.go:16-39 | the hashed bytes do not depend on the order in which members are listed |
| Ceremony.BytesTellCeremony | node/internal/dkg/nonce.go:16-39 | with keys of one length the bytes are equal if and only if epoch and multiset of members are |
| Ceremony.ContainsMember | node/internal/dkg/dkg.go:241-248 | true exactly when some member has the index |
| Ceremony.LocalUnion | node/internal/dkg/dkg.go:231-239 | the loop of the local resharing, as a function of its inputs |
| Ceremony.NetworkUnion | node/internal/dkgnet/run.go:112-127 | the nested loop of the networked one computes the same list |
| Ceremony.UnionCovers | node/internal/dkg/dkg.go:231-239 | nobody is left out, old members keep their places |
| Ceremony.UnionCount | node/internal/dkgnet/run.go:112-127 | an old member is listed as often as before, and a newcomer once more if its index is new, also when an index is listed anew with another key |
| Ceremony.UnionPermutes | node/internal/dkgnet/run.go:112-127 | listing old or new members in another order lists the same participants |
| Ceremony.NonceMembers | node/internal/dkgnet/run.go:66-87 | the union for a resharing, the members alone for a first ceremony |
| Ceremony.OneNonce | node/internal/dkg/dkg.go:114-132 | local and networked participants that list the same members in any order hash the same bytes |

## Left out

- Batch.BatchIsSingles: for batches that find their own members open when their turns come; the flags are read in the first loop (`src/VRFCoordinator.sol:441`) and not again in `_settle`. `Guard.GuardIff` says exactly when that is so, and `Guard.PaidTwice` that it can fail. The same premise is on Batch.MembersCredited and Batch.BatchCredits.
- Batch.BatchPays: the caller's withdrawable balance grows by exactly the sum of the prices when callbacks make no calls, because a callback may itself withdraw or earn credit; `Batch.BatchCredits` has the sum of the members' own credits for all callbacks.
- Promises.ReservedAtEveryMoment: provided batches find the requests of that account open when they settle them, like Promises.NeverStuck; Promises.RequestOutcome needs it of that request alone. `Guard.PaidTwice` shows that it can fail otherwise.
- Promises.SameWordsEveryTime: about fulfillRandomWords and retryCallback; the words of a batch are in `BatchWords`.
- Guard.GuardIff: its direction from the guard's failure to a failing callback assumes that the later member's seed does not hash to the point at infinity, unless it is past its timeout (`Guard.SeedsFinite`); the other direction does not (`Guard.GuardKeepsOpen`).
- Promises.RequestOutcome: that a callback always receives its whole budget is not claimed; the gas check comes before the pairing, and only the upper bound on a callee's gas is used.
- PublishOnce.OnePublication: the chain may take more than one of a node's transactions for a request, up to its tries; that only one takes effect is the coordinator's doing (`Promises.FulfilledOnce`, `Group.NodeIsPaid`). About one process: a restarted node starts with nothing published.
- Progress.ReadyIsPassed: for thresholds of at least one, as the dealing of shares demands; it speaks of runs whose handlers have ended, which `Progress.HandlersEnd` and `Progress.CanFinish` say they do.
- Progress.ReadyIsOffered: about requests that nobody else settles while no wait is cancelled and the chain answers that they are open; otherwise maybePublish gives up, as the source does.
- Progress.AnnouncedIsShared: that the own share was tried, not that it was filed: a session takes only the first point for an index (`Session.FiledIff`).
- Progress.PeerShareHeld: a share whose handler found no session and parks it only after the announcement has taken what was held stays held; it is not filed by that announcement.
- Authority.AccountSpared: what requests have paid is what their tickets list as credited, also for a request settled more than once (`Guard.PaidTwice`).
- Promises.ChargedAtEveryMoment: by block; within the block in which a proposal is applied a request may be charged before or after it. `Promises.PriceForever` has the very state.
- Nonces.AnySchedule: a transaction that the chain takes only after its send had already returned an error, eviction from the pool, and other users of the key are not modelled.
- Scanning.ChunkRange: asks that the last step not wrap around 64 bits (see above); the pause between chunks, back-off, nudges and cancellation are not modelled.
- Threshold.AggregateShares: the library's RecoverCommit is taken to interpolate at zero over some choice of at least t of the shares; its internals and its own refusals are not part of this model.
- Ceremony.SessionNonce: the hash is a parameter and the sort is any sort; a member is its index and marshalled public key, as its private half is never encoded.
- PublishOnce.OthersStand: stated for the interleaving machine on values; the handlers of `node.go` other than park, takeParked and OnFulfilled are not also written as methods of an object, since their steps interleave.
- Curves, pairings, hashing to the curve, keccak and the ABI: points are discrete logarithms, hashes are arbitrary functions.
- Encodings of the group key, and the checks the verifier's constructor makes of it, beyond "not infinity".
- Constructor guards against zero addresses, caps and first prices appear as premises.
- The recipient of a transfer, events and views; the shorter name fundSubscription.
- Lower bounds on gas: calls may be given any amount up to their frame's bound, and running out of gas is a refusal.
- Coin forced onto a contract from outside its functions.
- kyber's key generation and resharing; the commitments are a fixed polynomial.
- HTTP, the mesh, the ceremony's board, keystores, metrics, health, balance checks, real time and jitter, all programs under `cmd/`, scripts.
- FulfilGasLimit, fee caching and transaction fields other than the nonce.
- Example games, mocks and gas measurements.
