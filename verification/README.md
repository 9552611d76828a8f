# Threshold node: a verified model

A threshold node holds Bitcoin for its users together with other nodes. This
project models the four parts of it that decide where the money goes, and
proves properties of them:

- **The wallet** (`CoinSelection`, `PayoutSearch`, `Wallet`, `Deposits`,
  `Tracking`, `Withdrawals`): which outputs it tracks, how it chooses inputs,
  what it signs away, what a confirmed deposit credits, and what a withdrawal is
  paid and debited.
- **The ledger** (`Bytes`, `Protocol`, `Executor`, `Programs`, `Chain`,
  `Conservation`, `Convergence`, `Replays`, `History`): the stack machine that
  runs transactions, the programs the node builds for it, the finalisation of
  blocks, and what the database keeps of them.
- **Consensus** (`LeaderElection`, `Consensus`, `VoteNetwork`,
  `ConsensusLedger`, `Rounds`, `FullRound`): leader election, the message
  handler of one node, what it executes, any number of such nodes on a network,
  and a whole round of theirs.
- **FROST** (`Dkg`, `Signing`, `SigningNetwork`, `SigningNonces`,
  `SigningCompletes`): key generation and signing sessions (sections 5.1 to 5.3
  of RFC 9591) as the node sequences them.

State that the node updates in place is a class with the same fields. Each of
its methods is proved against a specification function of the state before, and
the lemmas are about those functions, over whole runs. `Sorting`, `Sets`,
`Repeats`, `Bitcoin` and `Prelude` hold what several parts share.

How the outside world is represented:

- A hash is the value that was hashed, so hashes do not collide. A Bitcoin
  transaction id is the transaction without witnesses (BIP 141).
- A nonce is its owner and a serial number; a commitment determines its nonce; a
  share records signer, nonce and package. Whether a cryptographic step fails is
  an input of the step (`Luck` in `Dkg`).
- The oracle, the address codec, text decoding and the id of a transaction are
  functions handed in. Random draws and session ids are parameters.
- A broadcast reaches the other nodes and not its sender, as in gossipsub.
- Ledger amounts are 64-bit and round numbers 32-bit, with wrap-around written
  out, as compiled without overflow checks. Wallet amounts are unbounded, and
  the fee, computed in floating point by the node, is exact in half vbytes.

Where the code and its own words differ, the model follows the code. The log
lines of the vote handlers speak of more than two thirds; the code asks for
`len >= 2 * n / 3`, rounded down, which is what `Quorum` says (at least one
vote, as the count is taken after a vote is added). `QuorumIntersection` states
for which numbers of validators two such quorums always meet.

Some properties one might expect do not hold of the code without a condition.
They are stated as holding if and only if that condition does, with a family of
inputs that breaks them: one deposit per credited address (`OneDepositEach`,
`SharedDeposit`), deposits credited once (`CreditedOnceIff`,
`ReceivedTwiceCreditedTwice`), outputs tracked once (`MixedRunDistinct`,
`OwnSpendConfirmed`), the last part of key generation run once (`RunsOnceIff`,
`RepeatRunsAgain`), and coordinator nonces used once (`NoncesUsedOnceIff`,
`CommittedTwice`). Leaders taking fair turns (`LeaderIsFair`) and rounds only
rising (`RoundMonotone`) hold exactly away from the wrap-around they name; past
it the round is zero, where the timer does nothing (`TicksRotate`).

That things do happen is stated the same way. An undisturbed round is finalised
by every node if there are four or more validators, by the follower alone of
two, and by nobody of three, since a node does not count its own vote
(`RoundFinalizes`). An undisturbed signing session ends in one signature if it
could be started, more than one signer is needed and all signers have keys, and
in none otherwise (`SessionCompletes`, `SessionEnds`). Key generation starts
exactly on the events `StartsIff` names.

## Model

| member | source | states |
|---|---|---|
| `Sorting.SortSorted` | crates/abci/src/chain_state.rs:142-143 | the library sort yields an ordered list; with the permutation clause of SortByKey, a sort |
| `Sorting.SortStable` | crates/node/src/wallet/taproot.rs:85-86 | elements with equal keys keep their order |
| `Sorting.SortedSame` | crates/abci/src/chain_state.rs:142-143 | with ids that tell transactions apart, two pools sort to the same list if and only if they are permutations of each other |
| `Bytes.U64RoundTrip` | crates/abci/src/executor.rs:71-75 | big-endian amounts: decoding inverts encoding on every u64 and encoding inverts decoding on every eight bytes |
| `CoinSelection.PrefixIsRichest` | crates/node/src/wallet/taproot.rs:85-101 | exchange argument: no selection of k outputs is worth more than the k largest |
| `CoinSelection.SelectOptimal` | crates/node/src/wallet/taproot.rs:82-102 | selection fails if and only if the wallet is too poor; otherwise it covers the target with outputs of the wallet, and no covering selection is smaller |
| `CoinSelection.SelectUtxos` | crates/node/src/wallet/taproot.rs:82-102 | the loop computes that selection |
| `PayoutSearch.EnumeratedIsCombination` | crates/node/src/wallet/taproot.rs:396-398 | everything enumerated is a combination of k increasing indices |
| `PayoutSearch.CombinationIsEnumerated` | crates/node/src/wallet/taproot.rs:396-398 | every combination is enumerated |
| `PayoutSearch.EnumerationIncreasing` | crates/node/src/wallet/taproot.rs:396-398 | combinations come in strictly increasing lexicographic order |
| `PayoutSearch.TryInputs` | crates/node/src/wallet/taproot.rs:401-430 | inputs are taken if and only if they pay for the payouts and a fee with change that is zero or not dust, after at most one recomputation without change output |
| `PayoutSearch.ChooseInputs` | crates/node/src/wallet/taproot.rs:390-437 | the search fails if and only if no non-empty selection is acceptable; otherwise no acceptable selection has fewer inputs, and the choice is the lexicographically first of its size |
| `PayoutSearch.SearchDeterministic` | crates/node/src/wallet/taproot.rs:390-437 | that description fixes the choice, its change and its fee |
| `PayoutSearch.FeeBracket` | crates/node/src/wallet/taproot.rs:401-430 | inputs equal payouts, change and fee; the fee lies between the estimates without and with a change output, 31 vbytes apart; change is zero or at least dust |
| `PayoutSearch.InputCost` | crates/node/src/wallet/taproot.rs:401-406 | a further input costs 68 vbytes at the rate, and a transaction without inputs and outputs its 10.5 vbytes, rounded up |
| `PayoutSearch.SearchIsGreedy` | crates/node/src/wallet/taproot.rs:390-437 | from 18 sat/vB on, the exhaustive search is the shortest covering prefix of the outputs by value, and fails exactly when no prefix covers |
| `PayoutSearch.GreedyNeedsRate18` | crates/node/src/wallet/taproot.rs:417-430 | below 18 sat/vB, for every demand, a one-output wallet that covers it is refused, so 18 is the exact bound |
| `Wallet.IngestIgnoresWitnesses` | crates/node/src/wallet/taproot.rs:305-332 | a transaction and its signed form change the wallet alike |
| `Wallet.IngestExact` | crates/node/src/wallet/taproot.rs:305-332 | after ingesting, the list is the unspent entries in order and then one entry per owned output in order, with its outpoint, value and script, under the first address of that script |
| `Wallet.SpendEqualsIngest` | crates/node/src/wallet/taproot.rs:152-332 | spending leaves the wallet as ingesting the transaction from outside would, if and only if the recipient is not one of its own addresses and the change, if any, is recorded under the first owner of its script |
| `Wallet.SelectionRemoved` | crates/node/src/wallet/taproot.rs:175-178 | dropping the spent outpoints removes exactly the worth of the selection |
| `Wallet.SpendConserves` | crates/node/src/wallet/taproot.rs:152-270 | a spend lowers the wallet by amount and fee and at most dust besides |
| `Wallet.SpendPays` | crates/node/src/wallet/taproot.rs:159-208 | the transaction spends exactly the selection, pays the recipient first, leaves the fee and at most dust to miners, and sends change above dust to an address it already holds funds under |
| `Wallet.SpendFailsIff` | crates/node/src/wallet/taproot.rs:152-270 | which error a spend ends in, if and only if: too little money, no outputs, nothing to sign, or a richest output of a kind it cannot sign for; a dry run has the same result and leaves the wallet alone |
| `Wallet.PayoutsExact` | crates/node/src/wallet/taproot.rs:348-374 | payouts exist if and only if every withdrawal of the block is well formed, and are then those of the withdrawals in order |
| `Wallet.DefectStops` | crates/node/src/wallet/taproot.rs:350-374 | the first malformed withdrawal decides the result, whatever follows |
| `Wallet.BlockPayoutBalances` | crates/node/src/wallet/taproot.rs:343-472 | the payout transaction spends the chosen outputs, pays every withdrawal in order, then change to the wallet's first address, and balances with a fee inside the bracket |
| `Wallet.PaysInOrder` | crates/node/src/wallet/taproot.rs:447-465 | the outputs are the payouts in order, then at most one more, to the wallet's first address |
| `Withdrawals.WithdrawalsPaid` | crates/node/src/wallet/taproot.rs:348-374 | of a block of constructor-built transactions, each withdrawal is paid its amount to its parsed address, in order, then change to the wallet's first address, and nothing else |
| `Withdrawals.DebitedIsPaid` | crates/protocol/src/transaction.rs:184-206 | what running such a block debits an account for withdrawals is the value of the Bitcoin outputs that pay them |
| `Withdrawals.RelayedIsDebited` | crates/node/src/handlers/withdrawl/create_withdrawl.rs:172-205 | the transaction made for an announced spend debits its user the first output to the recipient and the fee, on 64 bits, if the balance covers it, and nobody else |
| `Wallet.TaprootWallet.constructor` | crates/node/src/wallet/taproot.rs:45-54 | the given addresses and no outputs |
| `Wallet.TaprootWallet.AddAddress` | crates/node/src/wallet/taproot.rs:117-119 | the address goes last, and nothing else changes |
| `Wallet.TaprootWallet.CreateSpend` | crates/node/src/wallet/taproot.rs:152-270 | the new wallet and result are those of Spend, for every outcome and for dry runs |
| `Wallet.TaprootWallet.SpendUtxos` | crates/node/src/wallet/taproot.rs:164-231 | the part after selection, including the search for the change output |
| `Wallet.TaprootWallet.IngestExternalTx` | crates/node/src/wallet/taproot.rs:305-332 | the loops compute Ingest: spent outpoints out, owned outputs in, in order |
| `Wallet.TaprootWallet.GetTransactionForBlock` | crates/node/src/wallet/taproot.rs:343-472 | result and every error as BlockPayout says, the wallet unchanged |
| `Protocol.FindIntent` | crates/abci/src/chain_state.rs:111-115 | finds an intent for the address if and only if there is one |
| `Protocol.DropIntents` | crates/abci/src/chain_state.rs:105-108 | keeps exactly the intents for other addresses |
| `Deposits.CreditsExactly` | crates/node/src/handlers/deposit/create_deposit.rs:150-250 | the pool afterwards is the pool before with the deposits of the watched, open-intent addresses the transaction pays put through its check for repeats: for the intent's user, of the value of the first output to that address |
| `Deposits.OneDepositEach` | crates/node/src/handlers/deposit/create_deposit.rs:178-198 | the pool grows by one deposit per address credited if and only if no two of them share user and value and none of the deposits is pending already; never by more |
| `Deposits.CreditSettles` | crates/node/src/handlers/deposit/create_deposit.rs:202-210 | after a transaction, exactly the credited addresses are watched no more and exactly their intents are gone |
| `Deposits.SharedDeposit` | crates/node/src/handlers/deposit/create_deposit.rs:178-210 | the failing input: two watched addresses of one user paid the same by one transaction make one deposit, and neither is watched afterwards |
| `Deposits.FailureIsFinal` | crates/node/src/handlers/deposit/create_deposit.rs:146-228 | a confirmation goes through if and only if no answer of the chain actor that is waited for is a failure: a lookup for a watched address no earlier output was credited for, or an addition or removal for the first output to a credited address; otherwise the outputs before the first such failure are credited, its own too if only the removal failed, the wallet has not seen the transaction, and no later confirmation of it changes anything |
| `Deposits.GossipedThenConfirmed` | crates/node/src/handlers/deposit/create_deposit.rs:146-198 | a deposit gossiped and executed becomes pending again by the node's own confirmation, since gossip does not mark it processed |
| `Deposits.CreditedNoMore` | crates/node/src/handlers/deposit/create_deposit.rs:202-210 | after a transaction, none of its outputs would be credited again, and nothing becomes creditable |
| `Deposits.RepeatsIgnored` | crates/node/src/handlers/deposit/create_deposit.rs:146-148 | any run of confirmations equals the run of first occurrences |
| `Deposits.FreshRunIngestsAll` | crates/node/src/handlers/deposit/create_deposit.rs:141-255 | a run without repeats hands every transaction to the wallet once, in order |
| `Deposits.UtxosExact` | crates/node/src/wallet/taproot.rs:305-332 | after any run the wallet holds its old outputs and all owned created ones less all spent ones, if and only if no output is spent before it is created without being spent again later |
| `Deposits.NeverSpendsItself` | crates/node/src/wallet/taproot.rs:305-332 | no transaction spends an output of its own |
| `Deposits.IngestAgain` | crates/node/src/wallet/taproot.rs:305-332 | ingesting twice tracks every owned output twice, so it is idempotent if and only if there is none |
| `Deposits.DepositIntentState.constructor` | crates/node/src/handlers/deposit/create_deposit.rs:20-26 | nothing watched, nothing processed |
| `Deposits.DepositIntentState.InsertPendingDepositTransaction` | crates/node/src/handlers/deposit/create_deposit.rs:141-255 | processed ids, watched addresses, intents, pool, wallet and success as ConfirmWith says, for every answer of the chain actor |
| `Deposits.DepositIntentState.CreditOne` | crates/node/src/handlers/deposit/create_deposit.rs:151-249 | one output, for every answer |
| `Deposits.DepositIntentState.HandleGossip` | crates/node/src/handlers/deposit/handler.rs:100-138 | pool and wallet as Gossip says: a gossiped deposit is ingested whether processed or not, and whether or not the chain actor added it |
| `Deposits.DepositIntentState.HandleWithdrawalMessage` | crates/node/src/handlers/withdrawl/create_withdrawl.rs:172-205 | pool and wallet as Relay says, for every failure: an announced spend is broadcast, ingested, and debited on 64 bits if its payment is found |
| `Tracking.StepDistinct` | crates/node/src/wallet/taproot.rs:152-332 | a spend, confirmation, gossiped deposit or relayed spend keeps outpoints distinct if and only if it brings in no output tracked already |
| `Tracking.MixedRunDistinct` | crates/node/src/wallet/taproot.rs:152-332 | over every run that mixes them, outpoints stay distinct throughout if and only if no event does so |
| `Tracking.OwnSpendConfirmed` | crates/node/src/handlers/deposit/create_deposit.rs:146-252 | the failing run: the wallet records the change of its own spend, whose id is not marked processed, so its confirmation records it again |
| `Tracking.RunDistinct` | crates/node/src/handlers/deposit/create_deposit.rs:141-255 | a repeat-free run of confirmations keeps outpoints distinct throughout if and only if each output it brings in that the wallet tracked at the start was spent in between |
| `Executor.RunConcat` | crates/abci/src/executor.rs:190-214 | a program runs as its first part and, if that succeeds, its second |
| `Executor.StepFrame` | crates/abci/src/executor.rs:54-185 | an operation that finds its operands ignores the stack below them |
| `Executor.RunFrame` | crates/abci/src/executor.rs:190-214 | so does any program that does not run out of operands, with the lower stack handed back untouched |
| `Executor.StepDepth` | crates/abci/src/executor.rs:54-185 | an operation with enough operands below it does not underflow and leaves exactly one result |
| `Executor.NoUnderflow` | crates/abci/src/executor.rs:190-214 | a static count of operands suffices for a whole program never to underflow |
| `Executor.TransferErrors` | crates/abci/src/executor.rs:95-113 | which error the operands of a transfer lead to, if and only if, read off the stack, and what is left of it |
| `Executor.QueryErrors` | crates/abci/src/executor.rs:54-75 | the same for an oracle query, whose operands are checked one by one |
| `Executor.TransactionExecutor.constructor` | crates/abci/src/executor.rs:29-37 | empty stack, no allowance |
| `Executor.TransactionExecutor.Push` | crates/abci/src/executor.rs:40-42 | the value goes on top |
| `Executor.TransactionExecutor.Pop` | crates/abci/src/executor.rs:44-46 | the top comes off, or nothing from an empty stack |
| `Executor.TransactionExecutor.OpCheckOracle` | crates/abci/src/executor.rs:54-93 | stack, allowance and error, for every malformed operand and verdict |
| `Executor.TransactionExecutor.PopTransferArgs` | crates/abci/src/executor.rs:95-113 | address and amount, checked after both are popped, with what is left of the stack in every case |
| `Executor.TransactionExecutor.OpIncrementBalance` | crates/abci/src/executor.rs:95-143 | stack, allowance, account and error in every case |
| `Executor.TransactionExecutor.OpDecrementBalance` | crates/abci/src/executor.rs:145-185 | stack, account and error in every case |
| `Executor.TransactionExecutor.ExecuteTransaction` | crates/abci/src/executor.rs:190-214 | the loop runs the whole program on the given chain state, keeping stack and allowance of earlier transactions |
| `Programs.WithdrawalIsDebit` | crates/protocol/src/transaction.rs:184-206 | on any machine the withdrawal program debits the user by the amount if the balance covers it, and otherwise changes nothing |
| `Programs.ApprovedDepositIsCredit` | crates/protocol/src/transaction.rs:135-167 | an approved deposit program credits the user and leaves allowances as they were, if and only if the allowance does not overflow |
| `Programs.UnapprovedDeposit` | crates/protocol/src/transaction.rs:135-167 | an unapproved one succeeds if and only if it was rejected and leftover allowance covers it, which it then spends |
| `Programs.BuiltSelfContained` | crates/protocol/src/transaction.rs:135-206 | programs from the constructors never touch the stack they start on |
| `Chain.BlockIsOneProgram` | crates/abci/src/lib.rs:208-215 | a block runs as one long program |
| `Chain.RunKeeps` | crates/abci/src/executor.rs:54-214 | operations change nothing of the chain state but accounts |
| `Chain.AllOrNothing` | crates/abci/src/lib.rs:208-232 | a failed block leaves chain state and database as they were; a good one moves height, accounts, pool, tip and both indices together |
| `Chain.ChainInterface.constructor` | crates/abci/src/lib.rs:128-143 | state as loaded |
| `Chain.ChainInterface.AddTransactionToBlock` | crates/abci/src/lib.rs:189-196 | the pool grows by the transaction unless it is there |
| `Chain.ChainInterface.GetProposedBlock` | crates/abci/src/chain_state.rs:141-151 | the next height over the pool sorted by id |
| `Chain.LostBetween` | crates/consensus/src/consensus_interface.rs:370-371 | if transactions are received between the request for a block and its finalisation, the pending ones lost are exactly those received in between |
| `Chain.FailedWrites` | crates/abci/src/db/rocksdb.rs:86-111 | whichever write of a block fails, the chain state is as before; the stored tip is then that of a block the chain state lacks if and only if just the last write failed |
| `Chain.ChainInterface.FinalizeAndStoreBlock` | crates/abci/src/lib.rs:208-232 | ledger and error as FinalizeOn says, including what a failed block leaves in the executor and a failed write in the database |
| `Conservation.StepBooks` | crates/abci/src/executor.rs:54-185 | every operation, in every state, keeps both books of every address exactly, counting each overflow |
| `Conservation.RunBooks` | crates/abci/src/executor.rs:190-214 | so does every program, wherever it stops |
| `Conservation.NeverSaturates` | crates/abci/src/chain_state.rs:31-37 | the saturating subtraction is exact wherever it is reached |
| `Conservation.BlockAccounted` | crates/abci/src/lib.rs:208-223 | so does every block, with what a failed block forfeits |
| `Conservation.RunOfBlocksConserves` | crates/abci/src/lib.rs:208-223 | over every run of arbitrary blocks: holdings, allowance, withdrawals, forfeits and 2^64 for each overflow that was kept add up to the start plus what the oracle approved; overflows of balances in failed blocks are put back with the accounts |
| `Conservation.NoValueFromNothing` | crates/abci/src/lib.rs:208-223 | no run leaves an address with more than was approved for it, approvals counted each time they are given; with no failed block and sums inside 64 bits, with no less either |
| `Conservation.GrantedOnceIff` | crates/abci/src/executor.rs:77-85 | over every run of arbitrary blocks, what is granted to an address is the sum of its distinct approvals if and only if none of a positive amount is given twice; then no run leaves it with more than that sum |
| `Conservation.NothingOverflows` | crates/abci/src/executor.rs:82-142 | if start and approvals of an address fit in 64 bits together, no addition for it overflows in any run, inside failed blocks neither |
| `Convergence.PoolContents` | crates/abci/src/chain_state.rs:122-129 | the pool holds exactly what was received, each once |
| `Convergence.SameProposal` | crates/abci/src/chain_state.rs:141-151 | the same pending transactions in any order give the same proposed list |
| `Convergence.StackIrrelevant` | crates/abci/src/executor.rs:190-214 | leftovers on the stack do not change what self-contained programs do |
| `Convergence.SameTransactionsSameResult` | crates/abci/src/lib.rs:208-223 | replicas that finalise the same list agree on error, accounts, height and allowances, whatever their stacks |
| `Convergence.ReplicasConverge` | crates/abci/src/lib.rs:198-232 | replicas with equal accounts, height and allowances and the same constructor-built transactions pending propose the same list and finalise their own proposals to the same result |
| `Convergence.RunsConverge` | crates/abci/src/lib.rs:189-232 | over any number of blocks, failed ones included, replicas that receive the same transactions in their own orders and with their own repeats keep the same accounts, height and pending set |
| `Convergence.TransactionIsMovement` | crates/protocol/src/transaction.rs:135-206 | with no allowance outstanding, a built transaction is one credit or debit, or fails, and leaves none outstanding |
| `Convergence.BlockIsMovements` | crates/abci/src/lib.rs:208-215 | the stack machine on a block of built transactions refines a plain list of credits and debits, failing exactly when that does |
| `Convergence.FreshReplicasConverge` | crates/abci/src/lib.rs:128-232 | with executors that start without allowance nothing about allowances need be assumed: replicas agree over any number of blocks, and no allowance is outstanding between blocks |
| `Replays.HeldOnceIff` | crates/abci/src/chain_state.rs:122-134 | a transaction is in as many blocks that succeed as there are turns holding it, and in at most one if and only if it is not received again after a block that held it succeeded, with another succeeding later |
| `Replays.BalanceIsHeld` | crates/abci/src/lib.rs:208-223 | over any number of blocks of built transactions, failed ones included, an account gains what the transactions of successful blocks pay it, as often as they are in one, less what they draw |
| `Replays.CreditedOnceIff` | crates/abci/src/lib.rs:189-223 | what the blocks credit to an account is what its distinct deposits pay if and only if no deposit of a positive amount is replayed: received again after a block that held it succeeded with another succeeding later, or sent in two transactions that both get into such blocks |
| `Replays.ReceivedTwiceCreditedTwice` | crates/abci/src/chain_state.rs:122-134 | the failing run: one approved deposit received again after its block is credited twice |
| `History.HistoryKept` | crates/abci/src/db/rocksdb.rs:86-111 | over any number of blocks, failed ones included, the database gains exactly the blocks that succeeded, one per height, with the transactions they held, and loses none; the tip is the last, and the state written with it has the accounts and height of the chain |
| `LeaderElection.IterationOrderIrrelevant` | crates/consensus/src/lib.rs:144-145 | whatever order the hash set iterates in, the sorted validators are the same |
| `LeaderElection.SelectLeader` | crates/consensus/src/lib.rs:139-149 | no leader if and only if there are no validators; otherwise the one at the round modulo their number |
| `LeaderElection.LeaderIsFair` | crates/consensus/src/lib.rs:139-149 | of n consecutive 32-bit rounds each of n validators leads exactly one, if and only if the rounds do not cross the wrap-around or n divides 2^32 |
| `Consensus.StepBounds` | crates/consensus/src/consensus_interface.rs:428-582 | every message keeps the recorded voters among the validators, and requests no second finalisation without a new round |
| `Consensus.RunBounds` | crates/consensus/src/consensus_interface.rs:428-582 | over every run, finalisation requests exceed started rounds by at most one |
| `Consensus.RoundMonotone` | crates/consensus/src/consensus_interface.rs:156-160 | a message does not lower the round if and only if it does not step past the largest u32 |
| `Consensus.RoundMonotoneOverRuns` | crates/consensus/src/consensus_interface.rs:428-582 | so no run that avoids that step lowers it |
| `Consensus.PrevoteOutcome` | crates/consensus/src/consensus_interface.rs:305-339 | a prevote is recorded once, and a precommit goes out for each new one from the quorum on |
| `Consensus.PrecommitOutcome` | crates/consensus/src/consensus_interface.rs:341-392 | finalised if and only if the distinct precommits reach the quorum, requested once |
| `Consensus.RoundDependsOnVoters` | crates/consensus/src/consensus_interface.rs:305-423 | within a round, in any order and with any repeats, votes, finalisation and number of precommits sent depend only on which validators voted |
| `Consensus.HeightsAgree` | crates/consensus/src/consensus_interface.rs:355-385 | over every run the consensus height is the chain height, and it never falls |
| `ConsensusLedger.LedgerStep` | crates/consensus/src/consensus_interface.rs:341-392 | the ledger moves exactly on a validator's new precommit that completes a quorum in a round without finalisation, by the block of everything pending |
| `ConsensusLedger.FinalizedBlock` | crates/consensus/src/consensus_interface.rs:355-385 | a block that succeeds is the stored tip, holds exactly the pending transactions sorted by id, and the accounts are those of running them |
| `ConsensusLedger.RunIsEpochs` | crates/consensus/src/consensus_interface.rs:428-582 | over every run of messages and transactions the ledger is that of the blocks of what was received between finalisations |
| `ConsensusLedger.NodesAgree` | crates/consensus/src/consensus_interface.rs:341-392 | nodes that received the same between finalisations, in any order and with any repeats, hold the same accounts, whatever votes and rounds they saw |
| `ConsensusLedger.NodeBalances` | crates/consensus/src/consensus_interface.rs:341-392 | a node's balances are what the transactions of its successful blocks pay, as often as they are in one, less what they draw |
| `ConsensusLedger.TickTurn` | crates/consensus/src/main_loop.rs:51-67 | the timer names the next leader, who alone announces and proposes |
| `ConsensusLedger.TicksRotate` | crates/consensus/src/main_loop.rs:51-67 | the k-th tick is the turn of the leader of the k-th round on, until the round number runs out, where the timer stops |
| `ConsensusLedger.TicksAreFair` | crates/consensus/src/main_loop.rs:51-67 | in as many ticks as there are validators each proposes exactly once |
| `Rounds.EntersIff` | crates/consensus/src/consensus_interface.rs:428-582 | which messages start a round, if and only if, which round, who leads it, and that all others leave round and leader alone, announcements aside |
| `Rounds.ValidatorsAre` | crates/consensus/src/consensus_interface.rs:529-571 | over every run the validators are those at the start and those added |
| `Rounds.LastHighestWins` | crates/consensus/src/consensus_interface.rs:474-497 | over every run within a round, the node follows the last announcement not below an earlier one or its own round |
| `FullRound.RoundFinalizes` | crates/consensus/src/consensus_interface.rs:156-392 | an undisturbed round from the leader's timer to the last vote, the votes in any order and with any repeats: who finalises, and what, exactly by the number of validators |
| `FullRound.RoundAgrees` | crates/consensus/src/consensus_interface.rs:156-392 | after such a round of four or more nodes all hold the same accounts at the same height |
| `FullRound.VotesNameTheBlock` | crates/consensus/src/consensus_interface.rs:236-339 | every vote of the round is for it, in the voter's name, and names the block the leader proposed |
| `FullRound.RoundExists` | crates/consensus/src/consensus_interface.rs:156-392 | every cluster that is ready can go through such a round |
| `Consensus.ConsensusInterface.constructor` | crates/consensus/src/lib.rs:120-136 | the initial state |
| `Consensus.ConsensusInterface.InitializeFromChainState` | crates/consensus/src/consensus_interface.rs:67-101 | the height of the chain and round zero, or the defaults if the chain actor does not answer |
| `Consensus.ConsensusInterface.StartNewRound` | crates/consensus/src/consensus_interface.rs:156-197 | round, leader, cleared votes and announcement as BeginRound says |
| `Consensus.ConsensusInterface.ProposeBlockAsLeader` | crates/consensus/src/consensus_interface.rs:199-234 | broadcasts its own next block and enters the prevote phase |
| `Consensus.ConsensusInterface.HandleProposal` | crates/consensus/src/consensus_interface.rs:236-271 | prevotes if and only if the block is its own in the leader's name |
| `Consensus.ConsensusInterface.ProcessPrevoteVote` | crates/consensus/src/consensus_interface.rs:305-339 | votes and broadcasts as OnPrevote says |
| `Consensus.ConsensusInterface.ProcessPrecommitVote` | crates/consensus/src/consensus_interface.rs:341-392 | votes, ledger, height and count as OnPrecommit says, failed finalisation included |
| `Consensus.ConsensusInterface.HandleVoteFrom` | crates/consensus/src/consensus_interface.rs:394-423 | votes of strangers are dropped |
| `Consensus.ConsensusInterface.HandleNewRoundFrom` | crates/consensus/src/consensus_interface.rs:445-473 | only a later round from the expected proposer is entered |
| `Consensus.ConsensusInterface.HandleAnnouncement` | crates/consensus/src/consensus_interface.rs:474-497 | a leader for the current or a later round is taken over |
| `Consensus.ConsensusInterface.AddValidatorPeer` | crates/consensus/src/consensus_interface.rs:529-571 | the last expected validator starts the first round |
| `Consensus.ConsensusInterface.TriggerNewRound` | crates/consensus/src/main_loop.rs:51-67 | the timer's round, with a proposal from the leader |
| `Consensus.ConsensusInterface.HandleMessage` | crates/consensus/src/consensus_interface.rs:428-582 | every message, undecodable ones included, does what Step says |
| `VoteNetwork.StepJustified` | crates/consensus/src/consensus_interface.rs:250-371 | a node prevotes only on a matching proposal and precommits only on a quorum of prevotes |
| `VoteNetwork.ReachableInv` | crates/consensus/src/consensus_interface.rs:305-423 | the invariant of every run of any number of nodes under loss, reordering and repetition |
| `VoteNetwork.FinalizationNeedsQuorums` | crates/consensus/src/consensus_interface.rs:305-371 | in every such run, once anyone has asked to finalise, a quorum of distinct nodes has precommitted, a quorum has prevoted, and each prevoter had matched a proposal against its own block |
| `VoteNetwork.PrevoteMeansSamePool` | crates/consensus/src/consensus_interface.rs:236-271 | a node prevotes for a leader's proposal if and only if it expects that leader, is at its height and has the same transactions pending |
| `VoteNetwork.QuorumIntersection` | crates/consensus/src/consensus_interface.rs:316-316 | any two quorums of n validators meet if and only if n is neither 2 nor 4 |
| `Dkg.NeverBothSecrets` | crates/node/src/handlers/dkg/key_creation.rs:24-455 | in every run, whatever fails and whoever repeats, the secrets of both rounds are never held at once, none is held before key generation starts, and the first round's is not held once there are keys |
| `Dkg.StartsIff` | crates/node/src/handlers/dkg/key_creation.rs:24-165 | over every run in which the last part does not fail, key generation is under way or done if and only if the number of signers is set and either a subscription or start signal found as many distinct subscribers as there are other signers or a decodable first-round package came |
| `Dkg.StartedHoldsSecret` | crates/node/src/handlers/dkg/key_creation.rs:70-165 | before any package arrives, a node that expects others holds its first-round secret if and only if it has started |
| `Dkg.SecondPartRetried` | crates/node/src/handlers/dkg/key_creation.rs:167-315 | a second part that fails loses nothing and runs again on the next package of the first round; it goes well if and only if all can be sent and every subscriber's package is in |
| `Dkg.RunsOfLastPart` | crates/node/src/handlers/dkg/key_creation.rs:167-446 | however often and in whatever order decodable packages of the peers come, if nothing fails the last part runs once for every second-round package that finds the first round full and leaves the second full, each time on the packages of all peers, and there are keys if and only if it ran |
| `Dkg.RunsOnceIff` | crates/node/src/handlers/dkg/key_creation.rs:317-446 | so it runs exactly once if and only if there is exactly one such package |
| `Dkg.CompletesIffInOrder` | crates/node/src/handlers/dkg/key_creation.rs:167-446 | if every peer delivers each package once, in any order, the last part runs once on the packages of all peers if the last first-round package precedes the last second-round one, and never otherwise; the second-round secret is still held at the end |
| `Dkg.RunsAgain` | crates/node/src/handlers/dkg/key_creation.rs:317-446 | a completed node handles a further second-round package of a peer by running the last part again with it; if that fails, secrets and packages go and the keys stay |
| `Dkg.RepeatRunsAgain` | crates/node/src/handlers/dkg/key_creation.rs:317-446 | after a complete in-order delivery one repeated second-round package, whatever fails after its answer, means two runs of the last part |
| `Dkg.DkgHandler.constructor` | crates/node/src/handlers/dkg/mod.rs:23-41 | nothing started |
| `Dkg.DkgHandler.HandleDkgStart` | crates/node/src/handlers/dkg/key_creation.rs:24-68 | as OnStart says |
| `Dkg.DkgHandler.Start` | crates/node/src/handlers/dkg/key_creation.rs:70-165 | as StartDkg says, for every failure |
| `Dkg.DkgHandler.HandleRound1Payload` | crates/node/src/handlers/dkg/key_creation.rs:167-238 | as OnRound1 says, undecodable packages included |
| `Dkg.DkgHandler.EnterRound2` | crates/node/src/handlers/dkg/key_creation.rs:240-315 | as TryEnterRound2 says, for every failure |
| `Dkg.DkgHandler.HandleRound2Payload` | crates/node/src/handlers/dkg/key_creation.rs:317-446 | as OnRound2 says, for every failure |
| `Dkg.DkgHandler.ResetDkgState` | crates/node/src/handlers/dkg/key_creation.rs:449-455 | as Reset says, keys kept |
| `Dkg.DkgHandler.Handle` | crates/node/src/handlers/dkg/handler.rs:13-57 | every event does what Step says |
| `Signing.StepShares` | crates/node/src/handlers/signing/create_signature.rs:127-328 | a step makes at most one share, with the active nonce, and a participant forgets that nonce with it |
| `Signing.ParticipantNonceUsedOnce` | crates/node/src/handlers/signing/create_signature.rs:127-328 | under arbitrary messages, no nonce a node committed as participant is in two of its shares |
| `Signing.NoncesUsedOnceIff` | crates/node/src/handlers/signing/create_signature.rs:186-328 | under arbitrary messages every nonce of a node, the coordinator's included, is in one share only, if and only if no session that has signed gets a commitment completing another package or a package it can sign |
| `Signing.SignedIsPackaged` | crates/node/src/handlers/signing/create_signature.rs:225-268 | with a threshold within the minimum and no messages from itself, a session has signed if and only if its package is built |
| `Signing.NonceReusedIffPackaged` | crates/node/src/handlers/signing/create_signature.rs:186-328 | so every nonce is used once if and only if no session is made to sign while its package is there |
| `Signing.CommittedTwice` | crates/node/src/handlers/signing/create_signature.rs:186-268 | the failing run: two commitments of one peer make two shares of one coordinator nonce on different packages |
| `Signing.AggregatesIff` | crates/node/src/handlers/signing/create_signature.rs:331-418 | a node aggregates if and only if a share arrives for its own session with the package built and completes the number of signers; it aggregates the shares it holds and that one, and the session is over; any other share of the session is kept |
| `Signing.SigningNode.constructor` | crates/node/src/handlers/signing/mod.rs:22-25 | no session |
| `Signing.SigningNode.StartSigningSession` | crates/node/src/handlers/signing/create_signature.rs:21-124 | session, own commitment and requests as OnStart says |
| `Signing.SigningNode.HandleSignRequest` | crates/node/src/handlers/signing/create_signature.rs:127-183 | a fresh nonce and its commitment, or an empty answer without keys |
| `Signing.SigningNode.HandleCommitmentsResponse` | crates/node/src/handlers/signing/create_signature.rs:186-271 | as OnCommitments says |
| `Signing.SigningNode.DistributePackage` | crates/node/src/handlers/signing/create_signature.rs:225-268 | package, own share and messages as BuildPackage says |
| `Signing.SigningNode.HandleSignPackage` | crates/node/src/handlers/signing/create_signature.rs:274-328 | as OnSignPackage says |
| `Signing.SigningNode.HandleSignatureShare` | crates/node/src/handlers/signing/create_signature.rs:331-418 | as OnSignatureShare says |
| `SigningNetwork.ReachableInv` | crates/node/src/handlers/signing/create_signature.rs:21-418 | the invariant of every run of honest nodes with interleaved sessions under loss and reordering |
| `SigningNetwork.AggregationsSound` | crates/node/src/handlers/signing/create_signature.rs:196-383 | in every such run, each aggregation is over the shares of exactly the package's committers, who are exactly the session's min-signers signers, each share made on that package with the nonce committed in it, for the session's message |
| `SigningNonces.HonestNoncesUsedOnce` | crates/node/src/handlers/signing/create_signature.rs:21-328 | in every such run no two shares, of whatever nodes and sessions, are made with the same nonce |
| `SigningCompletes.SignersHaveKeys` | crates/node/src/handlers/signing/create_signature.rs:21-418 | in every such run, every share sent, held or aggregated is of a node with keys |
| `SigningCompletes.SessionCompletes` | crates/node/src/handlers/signing/create_signature.rs:21-418 | a session that nothing disturbs, in whatever order its messages arrive, ends with exactly one aggregation, of that session and sound, if the coordinator could start it, more than one signer is needed and every chosen peer has keys; otherwise with none |
| `SigningCompletes.SessionEnds` | crates/node/src/handlers/signing/create_signature.rs:21-418 | and it does end: after at most four deliveries per peer nothing is left to deliver |

## Left out

- Networking, gRPC, the command line, channels and tasks: they carry the modelled messages. An actor handles one message at a time; what another message in between two of a handler's requests does is modelled only in Chain.LostBetween.
- The arithmetic of FROST, Schnorr and ECDSA signatures, SHA-256 and address encoding: taken as ideal, as described above.
- Encoding of messages, blocks and transactions in bincode, protobuf and JSON: their decoders appear as optional values.
- RocksDB: the store is two maps, a tip and the flushed state; reloading after a restart is not modelled.
- Esplora queries behind the oracle, `refresh_utxos`, `new_with_db`, `sign` and `generate_new_address` of the wallet, and the sighash of a spend.
- Quoting and confirming a withdrawal and its pending table: the spend they end in is modelled.
- Gossip of deposit intents and their creation: they only fill the watched addresses and intents that the model starts from.
- The genesis block, and overflow of the 64-bit block height.
- Failures to send or broadcast in consensus and signing, and errors reported to peers; `Dkg` does model them.
- Round timers, `current_block_hash` and log output, which no modelled branch reads.
- Agreement between nodes that lie, and between different rounds: votes are counted without regard to their round or block, so the code does not promise it.
- Wallet.TaprootWallet.CreateSpend: 64-bit overflow of amount plus fee and of sums of outputs is not modelled; Bitcoin's supply keeps sums of real outputs far below it.
- PayoutSearch.TryInputs: rounding of fees above 2^53 half vbytes times rate in floating point is not modelled.
- Signing.SigningNode.HandleSignatureShare: the pending spend that a signature completes is not modelled, nor that its failure keeps the session active.
- Consensus.ConsensusInterface.StartNewRound: a failed announcement, which returns before the votes are cleared, is not modelled; it happens only once the network task has ended.
- Consensus.ConsensusInterface.ProcessPrecommitVote: takes the database to accept its writes and no transaction to reach the pool between the request for the block and its finalisation; Chain.FailedWrites and Chain.LostBetween say what happens otherwise.
- Dkg.RunsOfLastPart: for runs in which no cryptographic step and no send fails; the other runs are covered by Dkg.NeverBothSecrets.
- Dkg.DkgHandler.Handle: the two listener sets, which the code keeps equal, are one.
