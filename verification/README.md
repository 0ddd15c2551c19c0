# Bundler verification

A Dafny model of the ERC-4337 bundler's submission path, with proofs about it. It covers the batcher
(queue, dispatcher, flushes), the two-level nonce lock with the wallet senders that run under it, both
joined into one model of a deployment with any number of processes, the split executor, the fee
arithmetic, and the smaller algorithms they rest on: lock keys, the round-robin cursor, hot-wallet pools,
the client cache and error classification.

## Layout

| file | content |
|---|---|
| `Common.dfy`, `Runs.dfy` | options, sums, and runs of a transition system |
| `LockKeys.dfy` | lock-key texts |
| `NonceLock.dfy` | nonce lock, lock server and node as a transition system over processes and sessions |
| `LockTraces.dfy`, `LockFates.dfy` | what becomes of a call under the lock: when it succeeds, how it can end, and that each ending happens |
| `Batcher.dfy` | the batcher of one process and one chain as a transition system |
| `BatcherSafety.dfy`, `BatcherTheorems.dfy`, `BatcherProgress.dfy` | its invariant, its promises, deadlock freedom and termination |
| `BatcherTraces.dfy` | what a run tells about batches and callers: why a batch is short, whose wallet it goes to, what a caller returns |
| `BatcherSerial.dfy` | exactly when an account of one process keeps at most one unresolved operation |
| `BatcherLoops.dfy` | the drain loop and `flush` in imperative form, held to the same definitions |
| `Cluster.dfy` | the deployment: any number of batchers over one pool, wallet and account locks through the nonce lock |
| `ClusterSafety.dfy`, `ClusterTheorems.dfy`, `ClusterProgress.dfy` | its invariant, its promises, deadlock freedom and termination |
| `ClusterRefines.dfy` | each process and the lock, seen alone, run as their own systems do |
| `ClusterSuccess.dfy`, `ClusterSenders.dfy` | who is told success, and that each outcome of a flush or another sender happens |
| `ClusterAccounts.dfy`, `ClusterSerial.dfy` | serialisation of accounts across processes: what keeps it, what breaks it, exactly when |
| `AccountNonce.dfy`, `AccountWitness.dfy` | exactly when two operations of an account can read the same account nonce, and a run in which they do |
| `ClusterRetry.dfy` | what a failed batch settles: exactly when a retry can make the chain carry an operation twice |
| `ClusterWitness.dfy` | runs in which the chain carries an operation twice, after a lost reply and after a mining timeout |
| `RoundRobin.dfy`, `KeyedSort.dfy`, `SignerPool.dfy` | wallet cursor, sorting by key, pools |
| `Fees.dfy` | fee selection, floors, headroom, gas limits |
| `Split.dfy` | `ensureAllowance` as a function of what the node decides, with the exact condition for its reset; the retry of a broadcast, with the exact condition for both to be accepted; the methods and `Execute` |
| `ClientCache.dfy` | the per-chain client cache under racing calls |
| `TxError.dfy`, `ErrorTable.dfy` | error classification, and the table of phrases that decides it |

Concurrent code is modelled as a state machine: a `Step` datatype, `Enabled`, `Apply`, and theorems about
every sequence of steps. Each point where the original can block, fail or be interleaved is a step.
Sequential code that updates state is modelled by classes and methods. What the node, the lock server, the
clock and `submit` do is nondeterministic.

## Assumptions

- Lock tokens (16 random bytes) are distinct.
- `PendingNonceAt` counts the transactions the node accepted, and a `SendTransaction` without an error was
  accepted. The node may otherwise accept any transaction at any nonce, and a failed call may hide an
  acceptance.
- Results about nonces and nonce slots across processes hold on *trusted* runs: with Redis, no entry expires
  while its owner still runs; without Redis, there is one process. The default lock TTL is 30 s
  (`internal/platform/env/env.go:26`) while a critical section may wait 60 s or 90 s for mining, so this is a
  condition on the deployment. `NonceLock.ExclusiveIffNoLapse` shows that it is exactly the condition.
  Everything else holds on every run, whatever expires: conservation, deadlock freedom, termination, that a
  success is on the chain, and how often the chain carries an operation. Serialisation of an account depends
  only on the entry of that account.
- For `AccountNonce`: an operation that was answered with success was executed and counts in the nonce of its
  account, and one that no accepted transaction carries was not. (`onchainSubmit` waits for the transaction to be
  mined and does not look at its status.)
- `submit` always returns, for progress.
- Every process sees the same pool of wallets, named by their addresses, without repetition, for the results
  about the deployment.

## Where code and documentation differ

- `internal/split/exec.go:320` presents `approve(0)` and a second `approve` as the remedy when the first
  approval fails. The reset reuses the nonce of the first approval. `Split.ResetHelpsIffUsable` gives the exact
  condition: some behaviour of the node lets the reset succeed if and only if that slot is still unused and all
  earlier ones can be filled. `Split.RevertedApproval` is a run in which the first approval is mined as reverted
  and the call fails. On a token like USDT, for which the remedy is meant,
  `Split.StrictTokenNeedsLostApproval` shows that it helps only if the first approval was not mined at all.
- `README.md` calls the nonce lock safe for any number of processes. That needs the TTL condition above:
  `NonceLock.ExpiryReusesNonce` is a run from an empty system in which one expiry makes the node accept two
  transactions at the same nonce.
- Account serialisation (`internal/transfer/send.go:145-146`, described there as safe for several processes) fails
  in two ways. In one process it is broken by a caller that is cancelled after the channel took its operation and
  before the answer, and by nothing else (`BatcherTheorems.OnlyGivingUpAbandons`, exact condition
  `BatcherSerial.SerialIffHarmless`). Across processes it is also broken by expiry, without any cancellation:
  in the run of `ClusterAccounts.ExpiryBreaksSerialisation` the entry of the account expires while its client
  waits, and two processes end up with an unresolved operation each. `ClusterSerial.SerialIffHarmless` is the exact
  condition for any number of processes.
- The purpose given there, that two withdrawals never use the same account nonce, is not met even without expiry
  or cancellation: in the run of `AccountWitness.SameNonceTwice` a withdrawal is answered with an error while its
  transaction is pending, and the next one may read the same nonce. `AccountNonce.SameNonceIff` says exactly when.
- The individual retries after a failed batch (`internal/userop/batcher.go:161-168`) suppose that the failed
  batch did not reach the chain. When flush falls back it is decided whether an operation can still be carried
  twice: exactly if the batch's transaction was accepted (`ClusterRetry.TwiceIffLandedAtFallback`). One such case
  flush could see: a failed submission that returned a hash, as after a mining timeout, always was accepted
  (`ClusterRetry.ReportedHashLanded`). `ClusterWitness.OperationCarriedTwice` is a run for each way the error arises.
- The retry of the split executor (`internal/split/exec.go:193-209`) supposes that a nonce error means that the
  first transaction was not accepted. `Split.BothLandIff`: both broadcasts of one request can be accepted exactly
  if the first one was accepted and reported an error that speaks of a nonce.

## Model

| member | source | states |
|---|---|---|
| `NonceLock.LockSafety` | internal/platform/redis/redis.go:25-104 | In every state of every run, under arbitrary expiry: at most one session per process and key is past the mutex, and of two sessions that believe they own a key at least one has lost its entry. |
| `NonceLock.ReleaseFreesOwn` | internal/platform/redis/redis.go:25-30 | In every reachable state a delivered release of a session that still has its entry removes that entry; no other entry is touched, every other session keeps its lease, and a release that is lost or comes too late removes nothing. |
| `NonceLock.ReleaseLetsNextIn` | internal/platform/redis/redis.go:80-101 | In every reachable state in which one session is about to release its own entry and another one is polling for the same key: after the delivered release the next SET NX gets that one inside, with the entry as its own. |
| `NonceLock.ExclusiveIffNoLapse` | internal/platform/redis/redis.go:71-104 | From any reachable state, all trusted continuations keep the lock exclusive across processes if and only if no owner's entry has expired. |
| `NonceLock.LapseReusesNonce` | internal/platform/redis/redis.go:80-103 | If the entry of a session that has read its nonce is gone, some continuation makes the node accept two transactions at that nonce. |
| `NonceLock.ExpiryReusesNonce` | internal/platform/redis/redis.go:80-103 | For every wallet some run from an empty system, in which one entry expires while its owner runs, makes the node accept two transactions at the same nonce: the condition on expiry cannot be dropped. |
| `NonceLock.NoncesConsecutive` | internal/userop/batcher.go:176-228 | On every trusted run, for any number of processes and any mix of batch, managed and direct senders, each wallet's accepted transactions occupy distinct, consecutive nonces, although the node would accept any. |
| `NonceLock.SuccessOwnsSlot` | internal/core/tx.go:39-71 | In every run, whatever expires, a sender that was told success has its transaction in the ledger at the nonce it read, under the hash it reports and with the operations it was given; on trusted runs in a slot no other session used. |
| `NonceLock.SendStep` | internal/transfer/send.go:56-65 | Sending at the nonce read under the lock extends the ledger consecutively and invalidates nobody else's nonce. |
| `LockTraces.SuccessIff` | internal/userop/batcher.go:190-228 | In every run, whatever expires: a session ends up successful if and only if its own transaction was seen mined, or it is a direct sender and its own send had no error; it reports a hash exactly if its own send had no error, and then that one. |
| `LockTraces.FourExits` | internal/platform/redis/redis.go:61-104 | In every run a finished call with Redis has ended in exactly one of four ways: no token, given up, ten looks that found the key taken, or fn ran and the release followed; without Redis fn ran. fn returned early or sent once, and waited for mining exactly if it had to; a call that did not get inside sent nothing and reports no success. |
| `LockFates.EveryFateHappens` | internal/platform/redis/redis.go:61-104 | The converse, from every reachable state: each way that the state leaves room for does happen, by the call's own steps, with any decision of the node and of the lock server. It leaves exactly the stated state behind: transaction, hash, success, mutex, and the key as it was but for a lost reply or a lost release. |
| `BatcherTheorems.ExactlyOnePlace` | internal/userop/batcher.go:68-172 | In every state of every run an accepted operation is in exactly one of channel, dispatcher, unfinished flush and answered; nobody is answered twice. |
| `BatcherTraces.BatchesInOrder` | internal/userop/batcher.go:98-143 | Batches in dispatch order, the batch being built and the channel spell the accepted operations in order; batches have 1 to 50 operations, and for a shorter one than 50 the run contains the moment at which the dispatcher had this batch in hand and the channel was empty; flushes in flight equal the semaphore slots, at most the pool size; the channel never holds more than 100. |
| `BatcherTraces.GathersGreedily` | internal/userop/batcher.go:112-122 | In every reachable state the step that ends the gathering of a batch finds 50 operations in it or the channel empty, and passes the batch on as it is. |
| `BatcherTraces.WalletsFollowCursor` | internal/userop/batcher.go:124-143 | In every run the wallet of the k-th flush is the k-th value of the cursor modulo the pool size, and 0 where the cursor failed. |
| `BatcherTraces.BatchesSpread` | internal/userop/batcher.go:134-143 | So while the cursor counts up, each wallet of the pool gets its share of the batches, rounded down, or one more. |
| `BatcherTraces.CallersGetTheirAnswer` | internal/userop/batcher.go:68-84 | In every run a caller that has returned has either been given the one answer to its operation or gone away before: by its preparations failing or by its own cancellation. |
| `BatcherTraces.CallersMayGoAway` | internal/userop/batcher.go:68-85 | In every reachable state a caller that prepares, waits for the channel or waits for the answer may go away; that gives back its account and changes nothing else, and no continuation ever submits its operation exactly if the channel did not have it. |
| `BatcherTheorems.AnswerIsOwnSubmission` | internal/userop/batcher.go:146-188 | Every answer is decided by the flush's submissions: a success carries the hash of a successful submission containing the operation, a failed batch of several gives each operation its own submission's outcome, and no other submission contains it. |
| `BatcherTheorems.SubmissionCount` | internal/userop/batcher.go:146-172 | A finished flush of k operations made exactly 1 or k + 1 submissions and answered all of them once. |
| `BatcherTheorems.ReplyNeverBlocks` | internal/userop/batcher.go:73-84 | Whenever flush is about to send a result, the result channel has room, cancelled client or not. |
| `BatcherTheorems.OneSubmitterPerWallet` | internal/userop/batcher.go:174-188 | At most one flush or other sender is submitting with a wallet in any reachable state. |
| `BatcherTheorems.OneLiveOpPerAccount` | internal/transfer/send.go:162-214 | In every run, of two unresolved operations of an account at least one was abandoned by cancellation. |
| `BatcherTheorems.AccountSerialised` | internal/transfer/send.go:143-219 | Without cancellation an account has at most one unresolved operation across queue, dispatcher and flushes. |
| `BatcherTheorems.OnlyGivingUpAbandons` | internal/userop/batcher.go:74-84 | A step leaves an operation abandoned if and only if it cancels its client while that waits and the result channel is empty; cancelling before the channel or after the answer harms nothing. |
| `BatcherSerial.SerialIffHarmless` | internal/transfer/send.go:143-219 | From every reachable state of a process, an account stays at one unresolved operation on all cancel-free continuations if and only if none is abandoned, or the one that is must be answered before the full channel takes anything (pool of one, its flush has the operation, and the dispatcher holds a complete batch it cannot launch). |
| `BatcherTheorems.CancelBreaksSerialisation` | internal/userop/batcher.go:79-84 | A concrete run with one cancellation leaves two unresolved operations of the same account. |
| `BatcherProgress.SomethingMoves` | internal/userop/batcher.go:110-188 | While anything is unfinished, including clients that hold account locks, some step that is neither arrival nor cancellation is enabled. |
| `BatcherProgress.WorkShrinks` | internal/userop/batcher.go:110-172 | Every step but an arrival strictly decreases the work measure; an arrival adds at most 15. |
| `BatcherProgress.RunsEnd` | internal/userop/batcher.go:68-188 | A run has at most 16 steps per arrival, whatever the interleaving. |
| `BatcherProgress.EndsAnswered` | internal/userop/batcher.go:68-188 | A run that can go no further by itself has answered every accepted operation exactly once, and no lock or slot is held. |
| `BatcherProgress.CanSettle` | internal/userop/batcher.go:110-188 | From every state of the invariant the system can finish by its own steps. |
| `BatcherProgress.AllWalletsInParallel` | internal/userop/batcher.go:124-129 | For every pool size some run has all wallets submitting at once. |
| `BatcherLoops.GatherBatch` | internal/userop/batcher.go:112-122 | The drain loop takes the next operations in order, 1 to 50 with the first, and stops short only on an empty channel. |
| `BatcherLoops.Flush` | internal/userop/batcher.go:146-172 | flush makes submissions of the shape every finished flush has and sends each operation exactly the prescribed answer. |
| `BatcherLoops.RetryEach` | internal/userop/batcher.go:161-168 | After a failed batch each operation is submitted alone once and receives that outcome. |
| `ClusterTheorems.SuccessIsOnChain` | internal/userop/batcher.go:146-228 | In every run of any number of processes, whatever expires, a client told success has its operation in a transaction that the node accepted for a pool wallet, under the reported hash; in a trusted run in a nonce slot that no other session of any process used. |
| `ClusterSuccess.SuccessIffMined` | internal/userop/batcher.go:146-228 | In every run of any number of processes, whatever expires: an answered client was told success if and only if a session that carries its operation, alone or in a batch, was told by the node that its transaction is mined. |
| `ClusterSuccess.AllMinedAreTold` | internal/userop/batcher.go:68-228 | So when a run can go no further by itself, each accepted operation has one answer, and that is a success exactly if its transaction was seen mined. |
| `ClusterSuccess.EveryOutcomeHappens` | internal/userop/batcher.go:174-228 | From every reachable state in which a flush finds its wallet free, each outcome of its submission for which the entries leave room happens in some continuation: no token, lock refused or lost, fn returning early, the node refusing, accepting, or accepting with an error, mining seen or not. The flush is left with exactly that outcome, and the ledger with its transaction exactly if it was accepted. |
| `ClusterSuccess.CanSucceed` | internal/userop/batcher.go:146-228 | From every reachable state in which a flush finds its wallet free and no entry in its way, some continuation without expiry or cancellation answers every operation of its batch with success, under the hash of its transaction. |
| `ClusterSuccess.ClientsAreToldSuccess` | internal/userop/batcher.go:98-228 | A run from the empty deployment, with Redis or without, in which two clients are told success by one batch. |
| `ClusterSenders.SendersGoToo` | internal/core/tx.go:39-71 | From every reachable state a managed or direct sender may come for any free wallet of the pool in any process, and each way its call can go happens; the batcher is left as it was. |
| `ClusterSenders.OutsidersGoToo` | internal/platform/redis/redis.go:61-104 | The same for a wallet outside the pool, in any process in which its mutex is free, by steps of the lock alone. |
| `ClusterRefines.LocksRefine` | internal/userop/batcher.go:174-188 | Every run of the deployment, seen from the lock, is a run of the nonce lock: what holds for that system holds in the deployment. |
| `ClusterRefines.BatchersRefine` | internal/userop/batcher.go:98-172 | Every run of the deployment, seen from one process, is a run of the batcher. |
| `ClusterTheorems.SubmissionsNeverShareSlots` | internal/userop/batcher.go:174-188 | On trusted runs two submissions of any two processes never share a nonce slot of a wallet. |
| `ClusterTheorems.DeploymentNonces` | internal/userop/batcher.go:190-228 | In every trusted run of the deployment each wallet's accepted nonces are consecutive and distinct. |
| `ClusterTheorems.TwiceIffBothLanded` | internal/userop/batcher.go:153-168 | In every state of every run, expiry included: the chain carries an operation more than once if and only if its batch was reported as failed although its transaction was accepted, and its own retry was accepted too. |
| `ClusterTheorems.NeverThrice` | internal/userop/batcher.go:146-172 | In every run, no operation is carried by three transactions. |
| `ClusterRetry.NotLandedNeverTwice` | internal/userop/batcher.go:161-168 | If the failed batch had not landed when flush fell back, no continuation makes the chain carry one of its operations twice. |
| `ClusterRetry.TwiceIffLandedAtFallback` | internal/userop/batcher.go:161-168 | From any reachable state in which flush has fallen back and the operation's own submission is to come: some continuation, even one without arrivals, cancellations and lost leases, makes the chain carry it twice if the batch had landed, and none does if it had not. |
| `ClusterRetry.ReportedHashLanded` | internal/userop/batcher.go:152-168 | In every run, a submission that returned a hash, with or without an error, was accepted by the node. |
| `ClusterWitness.OperationCarriedTwice` | internal/userop/batcher.go:161-168 | A run with one process and one wallet, without expiry or cancellation, in which the chain carries an operation twice: for a lost reply and for a mining wait that ran out. |
| `ClusterAccounts.OneLiveOpAnywhere` | internal/transfer/send.go:143-219 | In every run, whatever expires: of two unresolved operations of an account one was abandoned by cancellation, or they are in different processes and the lock session of one has lost its entry. |
| `ClusterAccounts.ExpiryBreaksSerialisation` | internal/transfer/send.go:143-219 | With two or more processes some run without cancellation, in which the account's entry expires while its client waits, leaves an unresolved operation of the account in each of two processes. |
| `ClusterSerial.SerialAnywhere` | internal/transfer/send.go:143-219 | Without cancellation, and as long as no client with the account loses its entry, an account has at most one unresolved operation in all processes together, whatever else expires. |
| `ClusterSerial.SerialIffHarmless` | internal/transfer/send.go:143-219 | From every reachable state, for any number of processes and however full the channels: an account stays at one unresolved operation on all continuations that cancel nobody and spare its owners' entry if and only if it has at most one now, none of its operations is abandoned (but for one that must be answered before anything of the account can follow) and, unless there is one process, no client with the account is unanswered behind an expired entry. |
| `AccountNonce.SameNonceIff` | internal/transfer/send.go:145-172 | At two moments of any run the chain may show the same nonce of an account if and only if every operation of the account confirmed by the second had been sent by the first. |
| `AccountNonce.SameNonceOnlyAfterFailure` | internal/transfer/send.go:145-172 | If two clients of an account can read the same nonce under the account lock, the first one's operation has not succeeded by then: it failed, or was abandoned, or one of the two lock sessions lost its entry. |
| `AccountWitness.SameNonceTwice` | internal/transfer/send.go:145-172 | A run with one process and one wallet, without expiry or cancellation: one client of an account reads its nonce, is answered with a mining timeout, and the next client may read the same nonce while the first transaction is pending. |
| `ClusterSafety.AccountNotInPool` | internal/transfer/send.go:162-162 | Locking an account never locks a wallet of the pool. |
| `ClusterProgress.CanEnter` | internal/platform/redis/redis.go:48-69 | In every reachable state, if a process's batcher finds a wallet free, the mutex of that wallet's key is free: wallets and accounts never block each other through their keys. |
| `ClusterProgress.DeploymentMoves` | internal/platform/redis/redis.go:61-104 | In every run, whatever expires: while any process has anything unfinished or any lock session has not ended, some step is enabled that is neither arrival, cancellation nor expiry. |
| `ClusterProgress.WorkShrinks` | internal/platform/redis/redis.go:71-104 | Every step of the deployment but an arrival, expiry included, strictly decreases the work measure. |
| `ClusterProgress.DeploymentEnds` | internal/userop/batcher.go:68-188 | A run of the deployment has at most 286 steps per arrival. |
| `ClusterProgress.DeploymentAnswers` | internal/userop/batcher.go:68-188 | A run of the deployment that can go no further by itself has answered every accepted operation of every process exactly once, and no mutex, lock or slot is held. |
| `LockKeys.FormatIntInjective` | internal/core/deps.go:27-29 | Decimal rendering of chain ids is injective. |
| `LockKeys.DecimalDigits` | internal/signer/manager.go:209-219 | The value of a text of digits grows by a digit as decimal notation says, with the digits told apart by their code points. |
| `LockKeys.KeyTexts` | internal/core/deps.go:27-29 | The text of a wallet key and of an account key, written out for one chain. |
| `LockKeys.WalletKeyInjective` | internal/core/deps.go:27-29 | Two wallet keys are equal exactly when chain and address are. |
| `LockKeys.AccountKeyInjective` | internal/transfer/send.go:162-162 | Two account keys are equal exactly when chain and account are. |
| `LockKeys.NamespacesDisjoint` | internal/transfer/send.go:162-162 | An account key equals a wallet key only for an "address" that starts with `account:`; no hex address does. |
| `RoundRobin.Server.Incr` | internal/platform/redis/redis.go:115-118 | INCR adds one or fails without effect, and never passes the largest int64. |
| `RoundRobin.Locker.NextIndexLocal` | internal/platform/redis/redis.go:123-129 | The local cursor gives its value modulo n and advances with uint64 wrap-around. |
| `RoundRobin.Locker.NextIndex` | internal/platform/redis/redis.go:108-121 | The index is the cursor value modulo n; a draw advances exactly one cursor, a failed draw none. |
| `RoundRobin.WalletIndex` | internal/userop/batcher.go:134-143 | The index is the cursor value modulo the pool size, 0 when the cursor fails, and points into every non-empty pool. |
| `RoundRobin.CorrectedIsEuclidean` | internal/platform/redis/redis.go:119-120 | The corrected truncated remainder is the Euclidean remainder for every counter value. |
| `RoundRobin.DrawInTurns` | internal/platform/redis/redis.go:108-121 | Draws by any number of processes in any order give the same sequence as one process. |
| `RoundRobin.FairShare` | internal/platform/redis/redis.go:106-129 | Over any run of draws each wallet is hit its share, rounded down or up. |
| `RoundRobin.EachWalletOnce` | internal/platform/redis/redis.go:106-129 | Any n consecutive draws hit each of n wallets exactly once. |
| `RoundRobin.Balanced` | internal/platform/redis/redis.go:106-129 | Over any run two wallets' counts differ by at most one. |
| `RoundRobin.LocalIsRedisShifted` | internal/platform/redis/redis.go:108-129 | Fresh local and Redis cursors run through the same cycle, one draw apart. |
| `Fees.HeadroomIffFive` | internal/evm/gas.go:26-53 | For a positive base fee, the cap covers base fee plus priority in each of the next 7 blocks, for every tip and every history allowed by the Specification section of EIP-1559, if and only if the base fee is at least 5 wei. |
| `Fees.EighthBlockNotCovered` | internal/evm/gas.go:38-53 | The eighth block is not covered in general: a concrete base fee and tip. |
| `Fees.RoomAtLeast` | internal/evm/gas.go:38-53 | The cap exceeds the priority by at least twice 125% of the base fee. |
| `Fees.CorrectionNeedsLowTip` | internal/evm/gas.go:45-51 | The minimum-cap correction is reached only when the bumped tip is below 2 gwei, and the cap ends above the minimum. |
| `Fees.ProviderOrdered` | internal/evm/gas.go:32-60 | Node-derived fees are positive and never have priority above max. |
| `Fees.ProviderBumps` | internal/evm/gas.go:26-60 | What is made of the node's word: 180% of the tip but at least 2 gwei; 180% of twice the base fee plus the tip, or 110% of the least cap if that is more; without them 180% of the gas price; without that 150 and 5 gwei. |
| `Fees.ApplyFloor` | internal/transfer/gas.go:46-67 | On the three floored chains the maximum is raised to 500 gwei and the priority to 50 gwei, or halved maximum if that would be above it; elsewhere nothing changes. |
| `Fees.FieldsFrom` | internal/transfer/gas.go:87-105 | For any fees, exactly: well-formed ones are kept, raised to 500 and 50 gwei on Sepolia, Fuji and KCP only; an inverted priority becomes half the maximum; a legacy price g gives 2g and g; without usable fees there is a fixed pair. |
| `Fees.UserOpMaxFeeFields` | internal/transfer/gas.go:72-106 | An override for the chain goes before the general one, for each amount; a complete override is taken unless it is inverted; otherwise the fees are the node's, never below them, raised to the floors on the three floored chains only. A result has 0 < priority <= max. |
| `Fees.GasLimitCoversIffWithinCap` | internal/evm/gas.go:63-72 | The gas limit stays in bounds, covers the estimate exactly when the estimate is within the cap, has the full margin when the cap allows and is the cap when it does not, in spite of uint64 wrap-around. |
| `Split.SendGrows` | internal/evm/gas.go:85-106 | Whatever the node decides, a transaction is accepted or not, with or without an error seen, and a spent nonce is always refused; nothing that was mined changes. |
| `Split.Node.SendTransaction` | internal/evm/gas.go:85-106 | The same for the method, which does what the function of the decisions says. |
| `Split.Node.WaitReceipt` | internal/evm/gas.go:109-130 | A confirmed or reverted receipt means the transaction is mined with that status; a timeout says nothing. |
| `Split.ApproveAndWait` | internal/split/exec.go:302-318 | Success means that this approval is mined in its slot and succeeded. |
| `Split.ResetFills` | internal/split/exec.go:325-332 | A successful reset fills both slots with approve(0) and approve(needed) and leaves the next one free. |
| `Split.ResetHelpsIffUsable` | internal/split/exec.go:320-332 | Some behaviour of the node lets the reset succeed if and only if the slot of the first approval is unused and every earlier slot holds an accepted transaction. |
| `Split.ResetPathIff` | internal/split/exec.go:290-333 | For the whole call from the first free slot: some behaviour makes it succeed by way of the reset if and only if every earlier slot holds an accepted transaction. |
| `Split.MinedFirstApprovalFails` | internal/split/exec.go:320-327 | If the first approval was mined without success, the call fails whatever the node does next. |
| `Split.RevertedApproval` | internal/split/exec.go:320-327 | Wherever an approval can be mined, a run exists in which it is mined as reverted and the call fails. |
| `Split.StrictTokenNeedsLostApproval` | internal/split/exec.go:320-332 | For a token that refuses to change a positive allowance, with one that is too small, the call succeeds only by way of the reset and only if the first approval was not mined. |
| `Split.EnsureSecures` | internal/split/exec.go:290-333 | For all decisions of the node, on success from the first free slot: the allowance read sufficed and nothing was sent, or this call's mined transactions fill the slots up to the returned nonce without a gap, all succeeded, the last approved exactly the amount needed and the chain holds it; the returned slot is free. |
| `Split.SendsIffShort` | internal/split/exec.go:290-300 | A call sends something if and only if the allowance was readable and is not known to be at least the amount needed; a sufficient allowance sends nothing and the call succeeds in the same slot. |
| `Split.SlotAfterApprovals` | internal/split/exec.go:176-186 | After the tokens are secured the next slot is free on the chain, and it is the pending one plus the number of this call's transactions that were mined. |
| `Split.EnsureAllowance` | internal/split/exec.go:290-333 | The method: it does what the function of the decisions says, so on success it has secured the allowance as stated above. |
| `Split.NoneReverted` | internal/split/exec.go:320-332 | No transaction of a successful call was mined as reverted. |
| `Split.ValidatePermit` | internal/split/exec.go:348-372 | Missing fields become zero; accepted exactly when a used permit has a token, a positive total, enough amount and both signature words. |
| `Split.BuildAndSend` | internal/split/exec.go:232-287 | For all decisions of the node: a failure before the broadcast changes nothing; otherwise exactly one broadcast, with the native total as value and the given nonces, and the chain and the error are those of one attempt. |
| `Split.LandsIff` | internal/split/exec.go:232-287 | An attempt is accepted exactly when it gets built, its slot is not used yet and the node takes it; then its error is what the node reported. |
| `Split.BothLandIff` | internal/split/exec.go:188-209 | Both broadcasts of one request can be accepted if and only if the first was accepted and reported an error that speaks of a nonce. |
| `Split.BothAcceptedIff` | internal/split/exec.go:188-209 | After the first attempt and the retry, both transactions are among the accepted ones exactly if both attempts landed. |
| `Split.SendWithRetry` | internal/split/exec.go:188-209 | At most two broadcasts, in adjacent slots, each with the payer nonce read for it; the call is done exactly if one of the attempts goes, and reports that one's payer nonce; the chain ends as after the first attempt and, only after a nonce error, the retry. |
| `Split.ExecuteLocked` | internal/split/exec.go:161-217 | The first broadcast is in the pending slot plus one for each approval of this call that was mined, the retry in the slot after it, each free on the chain when it is handed over. Every broadcast is funded: value is the native total, and a token total is covered by a validated permit, the allowance read, or this call's approval of exactly that total, which the chain still holds at the first broadcast. The call is done exactly if an attempt goes. |
| `Split.Execute` | internal/split/exec.go:115-222 | The same for the whole request; it fails without sending anything exactly if it is refused up front or what is read before is not available, or, after approvals at most, if the tokens cannot be secured. |
| `KeyedSort.Sort` | internal/signer/manager.go:203-207 | The result is a permutation in key order. |
| `KeyedSort.UniqueIffDistinct` | internal/signer/manager.go:203-207 | The order after sorting is determined by the names exactly when different names have different keys. |
| `SignerPool.LastUnderscore` | internal/signer/manager.go:210-210 | The last underscore, or -1 if there is none. |
| `SignerPool.IndexOfName` | internal/signer/manager.go:209-219 | A prefix ending in an underscore followed by a decimal index has that trailing index, so `_2` sorts before `_10`. |
| `SignerPool.IndexOfSigned` | internal/signer/manager.go:209-219 | A sign counts: after the underscore `-7` is index -7 and `+7` index 7. |
| `SignerPool.IndexWithoutNumber` | internal/signer/manager.go:209-219 | A name without an underscore, without a number after the last one, or with one above the largest int64, has index 0. |
| `SignerPool.Manager.LoadNames` | internal/signer/manager.go:81-89 | The pool holds the accounts of the names in order, or loading failed for one of them. |
| `SignerPool.Manager.BuildPool` | internal/signer/manager.go:62-103 | Environment key, then keystore pool, then owner key; a pool that was built is never empty. |
| `SignerPool.PoolExistsIff` | internal/signer/manager.go:62-103 | There is a pool exactly if the environment has a usable key, or it has none and the enabled keystore loads every name of the chain, or the owner's key if there are no names; it holds exactly the wallets of those. |
| `SignerPool.Manager.BundlerPool` | internal/signer/manager.go:48-60 | Once built, a pool is returned unchanged whatever the keystore becomes; failures are not cached; other chains are unaffected. |
| `SignerPool.Manager.PrimaryBundler` | internal/signer/manager.go:123-129 | The first wallet of the chain's pool, if there is a pool. |
| `SignerPool.Manager.SelectBundler` | internal/signer/manager.go:106-119 | The wallet of the pool at the next value of the cursor, Redis or local; none exactly when there is no pool or the cursor of a pool of several fails. |
| `SignerPool.Manager.DispatchWallet` | internal/userop/batcher.go:87-143 | The pool of a chain is not empty and the index drawn for a batch is in range, also when the cursor fails and wallet 0 is used. |
| `SignerPool.PoolDeterministic` | internal/signer/manager.go:62-103 | Any two orderings of the same names with distinct trailing indices give the same pool. |
| `SignerPool.PrimaryIsSmallestIndex` | internal/signer/manager.go:72-89 | The primary wallet belongs to a name with the smallest trailing index. |
| `ClientCache.NoClientLost` | internal/platform/ethclient/ethclient.go:30-66 | On every interleaving each dialled client is in exactly one of a call's hand, the cache, closed by a losing call, closed by Close. |
| `ClientCache.LosersAreNeverReturned` | internal/platform/ethclient/ethclient.go:47-55 | A client closed by a losing call was never returned; a returned one is cached or was closed by Close. |
| `ClientCache.OneClientPerChain` | internal/platform/ethclient/ethclient.go:30-66 | Between two runs of Close all callers for a chain get the same client. |
| `ClientCache.WarmCacheNeverDials` | internal/platform/ethclient/ethclient.go:30-40 | On every interleaving without a run of Close, a call that begins when its chain's client is in the cache never dials, and is given that client. |
| `ClientCache.FailsIffDialFailed` | internal/platform/ethclient/ethclient.go:41-46 | On every interleaving a call fails if and only if its own dial failed, and a client is dialled for each successful dial only. |
| `TxError.FindCode` | internal/platform/txerror/txerror.go:66-66 | The leftmost word-bounded revert code, or nothing exactly when there is none. |
| `ErrorTable.CodeIsWord` | internal/platform/txerror/txerror.go:66-66 | Five characters in any text are a revert code exactly if they are AC0, EP0 or PM0 with two digits and stand as a word of their own. |
| `ErrorTable.WhereTheCodeIs` | internal/platform/txerror/txerror.go:149-161 | A known code as the reason decides, then a code inside the reason, then one inside the message. |
| `ErrorTable.WhatIsReported` | internal/platform/txerror/txerror.go:69-127 | The RPC code is passed on, and so is the reason, or else the message; a revert without a reason gives its code as reason. |
| `ErrorTable.FirstPhraseDecides` | internal/platform/txerror/txerror.go:69-127 | Unless the error speaks of a revert, its category is that of the first of nine phrases that occurs anywhere in it in any case; without any, RPC codes from -32099 to -32000 are a server error and the rest is unknown. |
| `ErrorTable.LackOfFundsIsFinal` | internal/platform/txerror/txerror.go:95-101 | `insufficient funds` in any text that is no revert is 422 and not retryable. |
| `ErrorTable.LackOfTokens` | internal/platform/txerror/txerror.go:50-93 | AC007 at the end of a text is that revert, 422, final, with its explanation. |
| `ErrorTable.NonceErrIff` | internal/split/exec.go:105-111 | The split executor retries exactly the errors that mention `nonce` or `EFS024` in any case. |
| `ErrorTable.NonceTooLowIsRetried` | internal/split/exec.go:105-111 | So `nonce too low` in any text is retried. |
| `TxError.HexHidesCodes` | internal/platform/txerror/txerror.go:149-161 | In any text, no revert code starts inside a hex identifier, and codes before and after it are found exactly as if it were just "0x". |
| `TxError.LockFailureIsNonceConflict` | internal/platform/redis/redis.go:94-96 | For every chain and address, failing to get the wallet or account lock is NONCE, 409, retryable. |
| `TxError.MiningDeadlineIsTimeout` | internal/userop/batcher.go:222-226 | For every transaction hash, a mining wait that ran out is RPC_TIMEOUT, 503, retryable. |
| `TxError.ReceiptTimeoutIsTimeout` | internal/evm/gas.go:125-126 | The same for the receipt wait of the split executor. |

## Left out

- HTTP handlers, JSON and number parsing, logging, environment loading, wiring: short branches without a law of their own.
- go-ethereum (ABI, signatures, hashing, `WaitMined`) and the KMS and SQLite access: values or nondeterministic replies here.
- Update in place of the maps behind the batcher, the lock and the client cache: they are components of a state value, since the interleavings are the point; likewise `sort.Slice` sorts a value here.
- Several chains in one batcher: the model has one; every lock key, queue and cursor is separate per chain (`LockKeys.WalletKeyInjective`).
- NonceLock.NoncesConsecutive: does not cover the split executor, which sends several transactions in one session and, on a retry, skips a slot by design.
- AccountNonce.SameNonceIff: does not cover a transaction that is mined but reverts, nor the on-chain check of the account nonce.
- Split.BothLandIff: says that both broadcasts are accepted by the node; whether the router pays twice also depends on its own check of the payer nonce, which is not modelled.
- Split.SendWithRetry: does not state that a retry leaves no gap, because the code moves to the next slot on the guess that the first attempt used one.
- Split.ExecuteLocked: does not state that an allowance that was read is still there when the broadcast is mined, because earlier transactions of the wallet may spend it.
- RoundRobin.FairShare: does not cover draws where the cursor fails and wallet 0 is used instead, nor the wrap-around of the local cursor after 2^64 draws.
- SignerPool.Manager.BuildPool: does not state that a chain's names are its own, because the prefix query treats `_` as a wildcard.
- Payer nonces across successive splits: the executor does not wait for its broadcast to be mined.
- Parsing gwei amounts through floating point (`internal/transfer/gas.go:29-44`): overrides are optional positive integers.
- Unicode case folding in error texts: lower-casing is ASCII.
- Chain registry, salts, CREATE2 addresses, EntryPoint deposits and withdrawals.
