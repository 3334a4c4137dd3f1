# KasiDeposit, verified

KasiDeposit turns a shop voucher into money in a bank account. A request charges the voucher in one
transaction; then `advance` instructs a payout and settles or reverses the deposit, in phases, from any
number of processes at once. These Dafny files state what that may and may not do, and prove it.

## How it is modelled

**One transaction at a time.** `Deposits` gives each transaction as a function on the tables: what it
commits, or why it does not. `Service` runs the same transactions statement by statement on a `Session`, as
`DepositService` does, each method proved against its function whatever others commit between its
transactions, and between the float's two sums. The session records the locks each transaction takes; every
method takes them in one order, the one `Locks` proves free of deadlock.

**Everybody at once.** `Protocol` is a step relation. A step is one committed transaction, one read, or one
provider call; between two steps any other process may move, and any process may crash. Each process has a
program counter with what it has read so far, so answers and reads can be stale; a provider call that fails may
have made the payout all the same. Clocks, fresh values, the
risk band, whether the advance lock is granted (perhaps to everyone at once) and whether the provider answers
are arbitrary inputs. `Interleaved` shows that the two are one program: put any runs of others' actions between a
request's steps, and the protocol comes to exactly what `Service` says for the tables and the bank those runs
leave. `Undisturbed` is the same with nobody else at work, the float read in one query too.

**What holds.** `Invariant` and `Reachable` prove one inductive invariant over every run. `Safety`, `Fields`,
`Float`, `Replays`, `PayoutOrder`, `Traces` and `Worker` read their results off it; `Fields` says field by field
what each transaction writes, whose deposit it makes and what reason a failed one carries. `Overdraft`, `ZeroFee`
and `Failure` are runs that end as their names say. `AtomicMachine` is the machine one
would like to think of (charge, instruct, settle, fail, each atomic) and the proof that the running system
refines it.

**Beside it.** `Ledger`, `Switch`, `Vends`, `Payouts`, `MockProvider`, `RateLimit`, `PayoutMethods`, `Fees`,
`Rand`, `Luhn` and `Locks` model the parts the protocol stands on, and the other self-contained algorithms.

A deposit's uuid is its place in the deposits table and an entry group's is its place in the ledger. Tokens,
references, PINs and serials are inputs that may collide.

## What the proofs found

- **The float can be overdrawn.** `available_float` is two queries, with no isolation level set, and settling
  takes no float lock. A payout that settles between the two is counted twice. `Overdraft` is such a run, ending
  375 rand below zero. `Float.NeverOverdrawnIff` says exactly when: a run overdraws it iff some create commits
  although more settled between its two reads than the slack its check saw, the funding in between and what came
  back since. Read in one snapshot, the float is never negative. The comment at
  app/deposits.py:728-732 holds for each settlement, not for a check across one.
- **A fee below half a cent makes a voucher undepositable.** Settings allow a fee of nothing
  (app/config.py:76), but `post` refuses a zero line (app/ledger.py:106-107). The charge commits only if
  amount * basis points reaches 5000 (`Safety.ChargeCommitsIff`). `ZeroFee` is a run in which a good voucher is
  quoted, passes every check and still cannot be deposited.
- **The advance lock is a courtesy, with one exception.** Without it `payouts.status` can step back from
  submitted to pending (`PayoutOrder.StatusCanStepBack`). It does so in exactly one step: phase 3 writing a
  "pending" it heard earlier over a recorded "submitted" (`PayoutOrder.StepsBackIff`). With the lock that step is
  never taken. Nothing that moves money depends on it.
- **A printed amount parses back iff it can be printed, is not negative and fits decimal arithmetic.**
  `format_rand` puts the sign before the R, and `rand_to_cents` then does not recognise the R
  (`Rand.PrintThenParse`).
- **Five vouchers fail at the mock, not three.** Besides R405, R406 and R407, the payouts of R404.99 and R406.99
  vouchers are trigger amounts too (`MockProvider.FailingVouchers`).

## Model

| member | source | states |
|---|---|---|
| `Reachable.ActionKeeps` | app/deposits.py:694-868 | whatever process moves next, wherever any of them stopped or how stale its reads are, the whole invariant holds again: rows, vouchers, tokens, ledger and bank agree, and every process's captured values are still justified |
| `Reachable.RunsKeep` | app/deposits.py:694-732 | the invariant over every run of racing, crashing processes, and nothing already written is rewritten |
| `Safety.BalancesAlways` | app/ledger.py:93-162 | in every reachable state each entry group sums to zero, and the five balances are funding, live amounts, live fees, payouts owed and payouts settled, read off the deposits' statuses |
| `Safety.NothingRewritten` | app/deposits.py:193-200 | however a run goes on, the ledger only grows, rows keep their identity, every status change is nearer the end, and settled and failed are final |
| `Safety.ExactlyOnce` | app/deposits.py:694-732 | however many advances race or crash, with the advance lock always granted: at most one provider payout per deposit, for exactly its payout; the payout row names it; at most one of settlement and reversal is ever posted, the one the provider's outcome calls for |
| `Safety.NoStrayPayout` | app/deposits.py:767-800 | every payout the provider holds belongs to a deposit |
| `Safety.VoucherHeldOnce` | app/switch.py:252-325 | a voucher is redeemed iff exactly one of its deposits is charged, paying or settled; it is active iff all its deposits have failed |
| `Safety.SettledOnceEver` | app/deposits.py:553-579 | over any continuation of any run, a voucher has at most one settled deposit |
| `Safety.NeverRaised` | app/deposits.py:176-200 | no request ever meets IllegalTransition, a voucher with nothing to reverse or a duplicate payout row: only a zero fee line, five reference collisions, a token collision or the provider can raise |
| `Safety.ChargeCommitsIff` | app/deposits.py:519-579 | the charge of a large enough voucher commits iff it is still active, the key is new, some reference is free, and the fee rounds to at least a cent |
| `Safety.SmallFeeRaises` | app/ledger.py:106-107 | a charge that nothing else stops raises over a zero line iff its fee rounds to nothing |
| `Safety.DepositsHaveFees` | app/deposits.py:553-576 | in every run every deposit's fee reaches half a cent, so a voucher with a smaller one never has a deposit |
| `ZeroFee.CannotBeDeposited` | app/config.py:76 | with settings of no fee, a run in which an active, quoted, covered voucher's create ends in that exception, no row changed |
| `Safety.InsertFindsFree` | app/deposits.py:581-614 | inserting gives up exactly when every reference it tries is taken |
| `Safety.QuoteHonoured` | app/deposits.py:340-359 | in every run the payout quoted at lookup is the one stored on the deposit, given to the provider and recorded as paid |
| `AtomicMachine.Refines` | app/deposits.py:734-868 | every step of the running system is one guarded atomic step (charge, accept, answer, instruct, settle, fail, sale, funding) or no step at all |
| `AtomicMachine.RunRefines` | app/deposits.py:694-732 | the same at every point of every run |
| `AtomicMachine.StatusChangesAreSteps` | app/deposits.py:767-868 | a commit that adds a deposit or changes one's status is never a stutter |
| `AtomicMachine.Observed` | app/ledger.py:128-162 | what the atomic machine leaves out (voucher status, settlement balance, what users are owed, the float) is a function of it |
| `Float.SplitReadError` | app/ledger.py:153-162 | two sums read apart give the true float at the second read, plus payouts settled in between, less funding in between |
| `Float.FloatMoves` | app/deposits.py:728-732 | a charge takes exactly its payout from the float; settling takes it from the settlement account and changes the float by nothing; failing and funding give back exactly their amount; no other step posts |
| `Float.NeverOverdrawn` | app/deposits.py:527-551 | the float is never negative in a run where no payout settles between one check's two sums |
| `Float.SnapshotNeverOverdrawn` | app/ledger.py:168-177 | the float is never negative when each check sees one snapshot under the float lock |
| `Float.CommitLeaves` | app/deposits.py:527-579 | what is left when a create commits after a split read, to the cent, and that it is negative iff more settled in between than the slack, the funding and what came back |
| `Float.NeverOverdrawnIff` | app/deposits.py:527-579 | a run never overdraws the float iff at every commit of a create no more settled between its two sums than the check left over, was funded then and came back since |
| `Float.ReadsAlwaysTrue` | app/ledger.py:153-177 | what a create remembers of its float check is what the ledger said at those two moments |
| `Overdraft.FloatCanBeOverdrawn` | app/ledger.py:160-162 | a run with two vouchers that ends with the float at -375.00 |
| `Replays.OneDepositEach` | app/deposits.py:505-579 | over all interleavings keys, references and tokens each name at most one deposit, and the consumed tokens are exactly the ones deposits were made from |
| `Replays.OnlyTheCommitWrites` | app/deposits.py:409-422 | a create writes in its commit and nowhere else: refused, replayed, raised or crashed, it leaves every row as it was |
| `Replays.LaterCreateReplays` | app/deposits.py:387-425 | once a deposit is committed a later create with its token, key and user ends with that deposit or not at all, whatever the clock, risk band, float, payout outcome or races |
| `Replays.LaterCreateAnswers` | app/deposits.py:387-425 | and in three steps, once the float lock is free, it has answered with that deposit and written nothing |
| `Replays.UsedTokenAnswer` | app/deposits.py:505-517 | a used token is answered from the key alone: the user's deposit, deposit_not_found for someone else's, voucher_already_redeemed for none |
| `PayoutOrder.StepsBackIff` | app/deposits.py:823-835 | after any run, a step takes a payout row's status back iff it is phase 3 writing a pending heard earlier over a recorded submitted of a deposit still paying |
| `PayoutOrder.WithTheLockStatusMovesOn` | app/deposits.py:744-765 | while the advance lock keeps advances of one deposit apart, no payout row's status steps back |
| `PayoutOrder.StatusCanStepBack` | app/deposits.py:829-835 | without it a run exists in which a stale pending overwrites submitted |
| `Undisturbed.CreateAlone` | app/deposits.py:387-422 | a create run alone takes protocol steps to exactly what the service's specification gives, the float read in two queries or in one |
| `Undisturbed.AdvanceAlone` | app/deposits.py:734-742 | so does an advance, whether the lock is free or held |
| `Undisturbed.ServiceKeeps` | app/deposits.py:387-425 | whatever create or advance the service runs on tables the invariant holds of, it holds of what they leave |
| `Interleaved.AdvanceInterleaved` | app/deposits.py:734-868 | with any runs of others between its steps, an advance comes to exactly the tables, the provider and the exception the protocol reaches; phase 3 finds what those runs left |
| `Interleaved.AdvanceRacedKeeps` | app/deposits.py:767-868 | so, whoever races, what the service leaves satisfies the invariant, and it never meets an illegal transition, a voucher with nothing to reverse or a duplicate payout row |
| `Interleaved.CreateInterleaved` | app/deposits.py:387-422 | the same of a create: screening, the token, each of the float's two sums, the charge and a replay's answer each see what others have left by then |
| `Interleaved.AdvanceIsRun` | app/deposits.py:694-732 | where an interleaved advance ends is a state of one run of the protocol |
| `Interleaved.CreateIsRun` | app/deposits.py:694-732 | and so is where an interleaved create ends |
| `Fields.SaleIsAStep` | app/switch.py:147-195 | a sale at the switch is one step of the protocol's till, or changes nothing |
| `Fields.LookupAnswers` | app/deposits.py:340-348 | an unknown voucher and a redeemed one are refused, each with its reason; another is quoted as it then was |
| `Fields.TokenIssued` | app/deposits.py:340-359 | a quote writes one new token, for that voucher, unused and expiring after the configured time, and answers with it, the rounded fee and what is left, never below zero |
| `Fields.ScreeningRefuses` | app/deposits.py:429-479 | screening refuses exactly a request that could still become a deposit and is under review, or warned of and not acknowledged |
| `Fields.ReviewNeverDeposits` | app/deposits.py:452-459 | such a request ends refused in one step, having written nothing, and stays so in every continuation |
| `Fields.TokenVerdict` | app/deposits.py:527-546 | each refusal of the token with its exact condition, in order, and what passes |
| `Fields.ExpiredNeverCharges` | app/deposits.py:538-539 | a create that finds its unused token expired is refused and changes nothing |
| `Fields.DepositMade` | app/deposits.py:553-579 | every field a charge commits: the deposit is the caller's, to the caller's destination, under the caller's key, for the voucher's amount less a fee within half a cent, created and updated now, under the first free reference; the voucher, the token and three ledger lines follow, and nothing else |
| `Fields.CreateMakesTheCallers` | app/deposits.py:387-422 | however a create is raced, the deposit it makes is that, of the voucher its unexpired token names |
| `Fields.CreateServes` | app/deposits.py:387-425 | over every run, the deposit a create advances and answers with is its caller's and under its key, and one it made goes to its caller's destination |
| `Fields.OwnedForGood` | app/deposits.py:193-200 | in every continuation a deposit keeps its owner, destination, key, reference, voucher, amounts and creation time |
| `Fields.InstructionFields` | app/deposits.py:786-800 | recording an instruction writes a pending payout of the deposit's payout and moves the row to paying, or finds it no longer charged, or meets a duplicate |
| `Fields.OutcomeFields` | app/deposits.py:820-868 | every field written by settling, failing or a move, and when nothing is written |
| `Fields.FailureReasons` | app/deposits.py:852-867 | in every run a failed deposit and its payout row carry the provider's own reason if it gave a non-empty one, and "unknown" otherwise |
| `Failure.PayoutsCanFail` | app/deposits.py:852-868 | for every reason a provider may give, or none, a run whose deposit ends failed with it, the voucher as it was vended and nothing of the float reserved |
| `Service.DepositService.LookupVoucher` | app/deposits.py:340-359 | the refusals in order, or a new token and the quote, with no other row changed |
| `Service.DepositService.Transition` | app/deposits.py:193-200 | an illegal move, or a reason missing or misplaced, raises and writes nothing |
| `Service.DepositService.InsertDeposit` | app/deposits.py:581-614 | the first free reference is used, a key collision is a replay, five collisions are an error |
| `Service.DepositService.CheckFloat` | app/ledger.py:153-177 | the two sums, read apart, with whatever others commit in between |
| `Service.DepositService.ChargeAndRecord` | app/deposits.py:519-579 | refines the charging transaction, others committing before, between and after the float's two sums: the same refusals in the same order, having written nothing, or exactly its writes, uncommitted; locks taken in order |
| `Service.DepositService.ScreenAndCharge` | app/deposits.py:400-422 | screened, charged and committed, or rolled back to the rows others left and answered as a replay or refusal |
| `Service.QuietCreate` | app/deposits.py:400-422 | with nobody moving meanwhile, only a deposit made changes a row |
| `Service.DepositService.CreateDepositTo` | app/deposits.py:387-425 | the same followed by the advance, and the row the answer shows |
| `Service.Provider.CreatePayout` | app/payouts.py:74-109 | the contract's create for a positive amount; when the caller hears "unreachable" or an exception, the payout may or may not have been made |
| `Service.DepositService.InstructPayout` | app/deposits.py:767-801 | whatever others committed before and during the provider call: phase 3's write on the tables as they then are, for the reference this deposit's own key got; an unreachable provider leaves every row; locks taken in order |
| `Service.DepositService.AdvancePayout` | app/deposits.py:803-868 | whatever others committed before and during the provider call: the write the answer calls for on the tables as they then are, or none; locks taken in order while a deposit keeps its voucher |
| `Service.DepositService.RecordOutcome` | app/deposits.py:820-868 | phase 3: the failing deposit's voucher row, then the deposit's, locked; the status re-checked; then exactly the write the answer calls for |
| `Service.DepositService.LockRows` | app/deposits.py:820-824 | which rows phase 3 locks, in which order |
| `Switch.VoucherSwitch.Hold` | app/switch.py:292-300 | locks the voucher's row and changes nothing |
| `Service.DepositService.SettlePayout` | app/deposits.py:837-850 | payout row, settlement group and status commit together, or none does |
| `Service.DepositService.FailPayout` | app/deposits.py:852-868 | payout row, reversal group, voucher and status commit together, or none does |
| `Service.DepositService.Advance` | app/deposits.py:734-742 | both steps in order when the lock is free, an exception ending it; nothing when it is held |
| `Service.DepositService.GetDeposit` | app/deposits.py:877-890 | only the owner sees a deposit, moved on first if it is in flight |
| `Invariant.ChargeKeeps` | app/deposits.py:553-579 | the charging commit keeps rows, vouchers, tokens, ledger, balances and bank in agreement |
| `Invariant.InstructKeeps` | app/deposits.py:786-800 | recording an instruction never meets a duplicate, writes iff the row is still charged, and keeps the agreement |
| `Invariant.OutcomeKeeps` | app/deposits.py:820-868 | recording an answer, however stale, never raises; it settles, fails or updates only while the row is still paying, and keeps the agreement |
| `Deposits.TransitionFields` | app/deposits.py:136-200 | a status moves along one of six edges, with a reason iff it fails, changing nothing else of the row; otherwise the exception that says which rule it broke |
| `Deposits.TransitionDescends` | app/deposits.py:136-145 | every allowed transition brings a deposit nearer its end, and none leaves settled or failed |
| `Deposits.InsertedRow` | app/deposits.py:581-614 | an insert adds one row under a reference and a key nobody has, and each way it stops has the cause its name says |
| `Deposits.KeyFound` | app/deposits.py:505-513 | looking a key up finds its deposit iff there is one |
| `Deposits.ChargeOutcome` | app/deposits.py:553-579 | the one way the charge commits and everything that commit changes; every other end has its stated cause |
| `Ledger.Post` | app/ledger.py:93-125 | appends exactly one group iff the entries are at least two, non-zero, balanced and, with no deposit, funding only; otherwise refuses with the first reason and writes nothing |
| `Ledger.TotalIsByAccount` | app/ledger.py:111-113 | a transaction's total is what it adds to the five accounts together |
| `Ledger.FundFloat` | app/ledger.py:139-150 | settlement from capital, refused unless positive |
| `Ledger.DepositPostings` | app/deposits.py:568-576 | a deposit's charge, settlement and reversal all balance, and pass `post` exactly when none of their lines is zero |
| `Ledger.EntryTotals` | app/deposits.py:838-864 | what each of the three moves on each of the five accounts; the reversal undoes the charge |
| `Fees.PercentIsNearest` | app/money.py:22-27 | a percentage is the one whole number of cents within half a cent of cents * bp / 10000, the larger on a tie; refused iff an input is negative |
| `Fees.Depositable` | app/deposits.py:328-336 | a voucher can be deposited iff it meets the minimum and leaves more than half a cent after the fee; then 0 <= fee < amount and the quote is what is paid |
| `Switch.ReverseUndoesCharge` | app/switch.py:252-325 | a charge then a reversal leaves the vouchers exactly as they were, and a second charge in between is refused |
| `Switch.ChargeFields` | app/switch.py:252-325 | which refusal each meets, and every field a charge and a reversal write or leave |
| `Switch.VoucherSwitch.Vend` | app/switch.py:147-195 | out of range, or what `Sale` comes to; PINs, serials and keys stay unique |
| `Switch.SaleAnswers` | app/switch.py:172-195 | the first candidate with a PIN and serial nobody has becomes an active voucher of the asked amount, key and time, and nothing else changes; a key some voucher has returns that one and sells nothing; it fails iff no candidate is free |
| `Switch.SoldOnce` | app/switch.py:156-166 | two sales under one key, whatever else is sold, charged or reversed in between: the second sells nothing and reports the first's voucher with the first's amount, or runs out of candidates |
| `Switch.VoucherSwitch.Replay` | app/switch.py:197-216 | the voucher sold under the key, as it stands, with its own amount |
| `Switch.VoucherSwitch.Redeem` | app/switch.py:252-290 | redeems an active voucher for its full amount, or refuses and changes nothing |
| `Switch.VoucherSwitch.Release` | app/switch.py:302-325 | returns a redeemed voucher to active, or refuses and changes nothing |
| `Vends.VouchersUnique` | app/switch.py:147-195 | under any interleaving of tills no two vouchers share a PIN, a serial or a key |
| `Vends.RepeatedSale` | app/switch.py:154-216 | once a sale under a key is committed, a call with that key inserts nothing, whatever the till did before in its transaction: it answers with that voucher and the amount first vended, or fails after five collisions |
| `Vends.AloneIsSale` | app/switch.py:172-195 | with no other transaction open, the attempts come to exactly the switch's sale |
| `Vends.AttemptUndoesItself` | app/switch.py:165-190 | an attempt that does not insert leaves every row there was, the till's own earlier ones in the same transaction among them; a collision costs exactly one try |
| `Vends.EarlierWorkStays` | app/switch.py:138-141 | what a till has inserted stays, whoever vends and fails, until its own transaction ends |
| `Vends.EndsTransaction` | app/switch.py:138-141 | the caller's commit makes exactly that till's rows everyone's, and its rollback takes exactly them away |
| `Vends.DiscardKeeps` | app/switch.py:138-141 | a caller's rollback removes that till's rows and no others |
| `Payouts.CreateKeeps` | app/payouts.py:95-109 | the same key gets the same reference, distinct keys distinct ones, and asking again changes nothing |
| `Payouts.ProgressKeeps` | app/deposits.py:709-716 | a payout moves only forwards, and an outcome never changes |
| `MockProvider.DecodesBack` | app/payouts.py:105-128 | decoding a reference gives back the amount and the millisecond it was made from |
| `MockProvider.KnownReferences` | app/payouts.py:124-128 | a reference is known iff it reads mockpo, two numbers and a tag; those numbers are the amount and the millisecond |
| `MockProvider.AnswerAt` | app/payouts.py:111-121 | pending before 1.5 seconds, submitted before 3, then failed with the amount's reason or completed |
| `MockProvider.FailingVouchers` | app/payouts.py:23-31 | at 250 basis points, exactly which voucher amounts pay out a trigger amount, with which reason |
| `MockProvider.ReferencesDiffer` | app/payouts.py:105-107 | two references are equal iff amount, millisecond and key tag all are |
| `MockProvider.AnswerMovesOn` | app/payouts.py:111-121 | as the clock runs answers only move on, and an outcome never changes |
| `MockProvider.ClockKeepsContract` | app/payouts.py:111-121 | time passing is the provider's contract moving on |
| `MockProvider.KeepsContractIff` | app/payouts.py:93-109 | the mock's memory amounts to the provider's contract iff no two keys were given one reference |
| `MockProvider.MockPayoutProvider.Create` | app/payouts.py:95-109 | refines the contract's create while no other key was given the same reference |
| `MockProvider.MockPayoutProvider.Status` | app/payouts.py:111-128 | answers from the reference and the clock alone, as the contract would |
| `Models.Session.Take` | app/deposits.py:728-732 | a lock is added unless already held, and the session stays orderly iff the locks of the transaction are in the one order |
| `Locks.MutualExclusion` | app/switch.py:263-276 | no two transactions ever hold conflicting locks |
| `Locks.WaitingClimbs` | app/deposits.py:728-732 | whoever a transaction waits for stands later in the lock order |
| `Locks.NoDeadlock` | app/switch.py:292-300 | however many transactions take locks in that order, no reachable state has a circle of them each waiting for the next |
| `Locks.SomeoneMoves` | app/deposits.py:744-765 | whenever transactions are open, at least one waits for nobody |
| `Worker.PayoutWorker.PickDue` | app/worker.py:72-82 | the in-flight deposits unchanged for long enough, longest first, and none left out that is older while there is room |
| `Worker.PayoutWorker.RunOnce` | app/worker.py:55-70 | whatever others commit before and during each turn: advances them in order, passes over one that raises or is held, stops when told to, and counts what it advanced |
| `Worker.AdvanceEffect` | app/deposits.py:734-868 | one advance with the provider answering takes an in-flight deposit to where the outcome says, and leaves every other deposit and its place at the provider alone |
| `Worker.PassEffect` | app/worker.py:60-69 | each deposit's row is what its own turn makes of it, whatever was raised in the others, and unchanged if its lock was taken or the provider did not answer; from the turn that finds the worker stopping on, every row is untouched; the count is of the turns that went well |
| `Worker.OnePassFinishes` | app/worker.py:55-82 | uncontended, with no more due than fit in a batch, all are picked; a due paying deposit whose turn comes before any stop and whose payout has an outcome ends accordingly, and a due charged one is past charged, regardless of exceptions on other deposits |
| `Traces.TracesForVouchers` | app/deposits.py:896-943 | exactly the serials asked for that have a deposit, each with its newest deposit's reference, outcome and time and its number of deposits |
| `Traces.List` | app/deposits.py:924-929 | the join: every matching deposit once, newest first |
| `Traces.EarlierFailed` | app/switch.py:302-325 | a voucher is only ever tried again once all its earlier deposits have failed |
| `Traces.TraceIsTrue` | app/deposits.py:917-943 | when creation times agree with creation order: it shows the last attempt's reference and time and how many there were; the others all failed; "failed" is shown iff the voucher is active again, "paid" iff some deposit of it settled, "in_progress" iff one is charged or paying |
| `RateLimit.RateLimiter.Hit` | app/rate_limit.py:116-127 | admits exactly what a limiter keeping every admission forever would, through pruning and sweeping; a refusal's wait is that of the oldest live hit |
| `RateLimit.RateLimiter.MaybeSweep` | app/rate_limit.py:133-140 | every thousandth hit, forgets exactly the keys whose last hit has left its window |
| `RateLimit.KeptIsLive` | app/rate_limit.py:122-125 | after popping, the times kept are exactly the admitted times in (now - window, now] |
| `RateLimit.NoWindowOverfull` | app/rate_limit.py:116-127 | over any run no half-open interval of one window holds more than `requests` admitted hits of a key |
| `RateLimit.RetryAdmitted` | app/rate_limit.py:124-126 | after a refusal a retry is admitted iff it comes at or after the oldest live hit plus the window, and waiting `retry_after` always reaches it |
| `RateLimit.RetryIsLeast` | app/rate_limit.py:124-126 | of the whole seconds one could wait, `retry_after` is the least that is enough |
| `PayoutMethods.PayoutMethodService.AddShapId` | app/payout_methods.py:119-150 | the refusals in order, changing nothing; a number the user already has is returned and no row added, whenever it was saved; another user's is "already linked"; a sixth method is refused and a fifth is not; otherwise the new row, field by field, the defaults of the user's other rows, and the number copied to the user; one default, one owner, the cap and the copy all still hold |
| `PayoutMethods.PayoutMethodService.AddAccount` | app/payout_methods.py:152-196 | the same for accounts, by their hash, the copy left alone |
| `PayoutMethods.FormatParts` | app/models.py:313 | the number's format, part by part: country code, mobile digits and an optional lower-case bank |
| `PayoutMethods.FormatSplits` | app/models.py:313 | nothing else has the format |
| `PayoutMethods.PayoutMethodService.SetDefault` | app/payout_methods.py:240-246 | the chosen method becomes the user's one default, nobody else's row changes, and the copy is the chosen number; someone else's is not found |
| `PayoutMethods.PayoutMethodService.Remove` | app/payout_methods.py:248-270 | a removed default hands over to the row created last of those left, the smallest id first of equals; the copy, if it named the removed number, to the number so found or null; nothing else changes |
| `PayoutMethods.PayoutMethodService.MakeDefault` | app/payout_methods.py:272-282 | exactly this one of the user's methods is the default afterwards |
| `PayoutMethods.AddedSound` | app/payout_methods.py:198-236 | an addition keeps one default per user with methods, one owner each, at most five, and the copy naming a saved number |
| `PayoutMethods.RemovedSound` | app/payout_methods.py:248-270 | so does a removal |
| `PayoutMethods.RemovalDetermined` | app/payout_methods.py:253-269 | a removal has one outcome: the ordering by time and id settles which method and which number take over |
| `PayoutMethods.PromotedSound` | app/payout_methods.py:272-282 | so does a change of default, even from a state with none |
| `Rand.PrintThenParse` | app/money.py:13-54 | an amount prints and parses back to itself iff it has no more digits than the interpreter will print, is not negative and has at most 28 digits before its trailing zeros; a negative one is refused |
| `Rand.OrdinaryAmountsComeBack` | app/money.py:43-54 | every amount from 0 up to 10^28 cents comes back |
| `Rand.PrintedAs` | app/money.py:13-19 | the printed text, position by position: a sign if negative, R, digits in threes from the right with spaces between, a point and two digits |
| `Rand.NumeralIsCents` | app/money.py:30-54 | a plain numeral, with or without R, sign, point and white space about it, is its exact number of cents, or refused iff a fraction of a cent is left |
| `Rand.OnlyNumeralsParse` | app/money.py:43-49 | what is left after R and spaces go is an amount iff it is a plain numeral, exponents and the like aside |
| `Rand.WrittenOut` | app/money.py:39-40 | an integer and the same integer written out are the same amount |
| `Rand.HalfEvenIsNearest` | app/money.py:51-54 | decimal rounding is to the nearest, and to the even of two as near |
| `Rand.GroupsDissolve` | app/money.py:19-44 | dropping the thousands separators gives the digits back, at any length |
| `Luhn.HasValidChecksum` | app/sa_id.py:39-48 | the loop from the right computes the Luhn sum defined from the left |
| `Luhn.CatchesOneWrongDigit` | app/sa_id.py:39-48 | changing one digit of a valid string, of any length, is always noticed |
| `Luhn.CatchesSwaps` | app/sa_id.py:39-48 | swapping neighbours goes unnoticed iff they are equal or are 0 and 9 |
| `Luhn.OneCheckDigit` | app/sa_id.py:39-48 | every prefix has exactly one digit that completes it |

## Left out

- HTTP routes, schemas, the till page, QR codes, health checks, configuration loading, migrations and seeding: plumbing around the modelled services.
- Encryption, keyed hashes and random generators: tokens, references, PINs and serials are inputs, account hashes are taken as injective.
- The risk rules: `_screen` takes an arbitrary band or a failing assessor as input, and keeps only when there is anything to assess.
- Destination resolution, name matching and account verification: a refusal given as an input, in the order it is checked.
- Sessions beyond their transactions: identity maps, connection pools, lock and idle timeouts.
- Table constraints other than uniqueness and the checks the model states; PIN, reference and account-number formats.
- The mock provider forgetting its keys on restart: the protocol assumes a provider that keeps them, as app/deposits.py:709-716 does.
- Interleaved.CreateInterleaved: a create reads its clock once, where the code reads it at screening, at the token and at its last write; an advance reads it once in each half.
- Interleaved.AdvanceInterleaved: the provider gives a new key a reference it has not given, and is handed the row's destination, which no step changes; what it does with it is its own.
- Worker.OnePassFinishes: nobody else and no outcome moves during the pass; what may happen otherwise is in `Worker.PayoutWorker.RunOnce` and the protocol's invariant. There is no promise beyond one batch: deposits that keep failing stay at the head of the queue.
- Worker.PayoutWorker.PickDue: the query is a selection loop; deposits of equal age come in either order, as the database may give them.
- Traces.TraceIsTrue: creation times are the database's, and nothing in the program makes them strictly increasing, so their agreement with creation order is assumed.
- PayoutMethods.PayoutMethodService.Add: concurrent requests of one user, whose count check is not locked; another user's concurrent insert is decided by the index as the check is here.
- MockProvider.MockPayoutProvider.Create: the ten-digit key tag is an arbitrary function, so two keys of one amount in one millisecond may share a reference, and `MockProvider.KeepsContractIff` says what that costs; the clock is past the epoch.
- RateLimit.RateLimiter.Hit: one fixed limit per key, and clock readings in lock order; the code reads its clock just before the lock.
- RateLimit.RetryAdmitted: clock arithmetic is exact, where the code's is in doubles. With an oldest hit at 40 + 2^-47, a window of 60 and a refusal at 99, their sum rounds to 100 and `retry_after` is 1, but at 100 the oldest hit is still after 100 - 60 and the retry is refused.
- Rand.PrintThenParse: the interpreter's digit limit at its default of 4300.
- Rand.OnlyNumeralsParse: what `Decimal` reads besides plain numerals (exponents, underscores, non-ASCII digits, white space left within), non-ASCII white space, and float inputs of `rand_to_cents`.
- Rand.NumeralIsCents: numerals of more than 26 digits, where the product is rounded first; `Rand.PrintThenParse` covers printed ones of any length.
- MockProvider.KnownReferences: digits other than 0 to 9 that `isdigit` accepts.
- Service.DepositService.AdvancePayout: a lock is recorded and never waited for; what others may do before it is granted is part of what they commit in between. That the locks are in order assumes what no code path breaks: others do not change the voucher a deposit was made from.
- Locks.NoDeadlock: waits on unique indexes and on foreign keys to users; the float lock keeps two creates from inserting at once.
- Vends: a till that gives up inside a savepoint for any reason but its constraints.
- `list_deposits`, `destination_for_deposit`, `PayoutMethodService.list` and the switch's `recent`: reads without decisions.
- Registration beyond the check digit: dates of birth, ages and citizenship digits.
