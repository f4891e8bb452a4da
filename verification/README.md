# Vespra: a verified model

Dafny models of the parts of Vespra that decide whether money moves: the key manager's spend ledger, its
swap sequence and kill switch, the gateway's goal lifecycle, its two rate limiters, its backtest engine, the
yield-pool merge and cache, and the bridge that reports task status. `dafny verify dfyconfig.toml` checks
everything.

Code that changes state is a class or a method proved against a specification function; what several tasks do
to one store at once is a state machine whose steps are the awaits of the source. Answers of the network, the
chain, the agents and the clock are parameters, with every failure the code handles.

| File | What it models |
|---|---|
| `Decimal`, `EthAmount` | digit strings, `parse::<u128>`, the ETH/wei parser and printer |
| `Keystore`, `CapGate` | wallet and log tables, the running total, the cap comparison, sequential histories |
| `CapProtocol`, `CapOutflow` | spend handlers interleaving between check and log row; what really leaves |
| `SendNative` | fee, retries and log rows of one native send, with an account of every wei |
| `KillSwitch` | flag, state file, restarts, handlers |
| `Swap`, `SwapRetries` | wrap, approve, swap over ambiguous RPC errors; many calls with transactions that land late |
| `SwapToken` | token texts to addresses, slippage floor |
| `GoalMachine`, `GoalPaths` | a goal's record, its runner, other writers, crash and boot; when each point is reached |
| `GoalSafety`, `GoalWrites`, `GoalBuys`, `GoalHalts`, `GoalRounds`, `GoalResume`, `GoalLimits` | what holds of every run of the goal machine, and what does not |
| `GoalRunner` | the runner in its source's shape, proved to be a run of the machine |
| `GoalLoops`, `Sentinel` | retry, monitoring loop, boot loop; the sentinel's tick |
| `Safeguards`, `RateLimit` | the hourly limiter and the per-address token bucket |
| `Backtest`, `BacktestHoldings` | drawdown, rules-mode simulation, series alignment; when a position is held |
| `YieldProvider` | merge, deduplication, sort; the cached fetch |
| `Executor` | status reporting while polling; closing a claim |

## Where the code does less than it says

Each of these is a lemma about the code as it is.

- The spend cap bounds the counted total only while one spend is in flight; with `n` it is `n` caps, and that is
  reached (`CapProtocol.TotalBounded`, `CapProtocol.BoundIsReached`). ETH that leaves by a send reported as failed
  is never counted, so the cap does not bound what really leaves (`CapOutflow.OutflowIsUnbounded`).
- A cap below one wei, written with more than eighteen decimals, is stored as zero and means no cap; one of 2^128
  wei or more refuses every spend; ".+5" is read as 0.05 ETH and anything after the eighteenth decimal is accepted
  (`EthAmount.ReadAtItsValue`, `EthAmount.ExtraDecimalsIgnored`); a single spend of 2^128 wei or more is logged but
  never counted.
- The reset endpoint announces that cap integrity is restored, but it drops only native sends: afterwards a wallet
  can spend exactly what raw transactions and native swaps leave of the cap (`CapGate.ResetUnblocksWhen`).
- A swap whose error hides a landed transaction is logged as failed and made again by a retry
  (`Swap.FailedCallSwappedWhen`, `Swap.RetryAfterUnseenSwap`). A wrap whose receipt is not seen within sixty seconds
  is pending, and the next call wraps again: the wallet's ETH can be wrapped many times over without a swap
  (`SwapRetries.LateWrapsPileUp`).
- The gateway gives up on a request after thirty seconds and sends it again, up to three times, while the key
  manager may still be at work on the first: one BUY or SELL can be three, with no crash and a reliable store
  (`GoalLimits.ThreeBuysWithoutCrash`).
- The exit fee is requested with the goal's id where a wallet's belongs (`GoalSafety.OneWallet`).
- Overlapping kill-switch commands can leave the file saying the opposite of the flag
  (`KillSwitch.OverlapLosesActivation`).
- The BUY guard takes an unreadable store for an empty position, so it buys again
  (`GoalLimits.UnreadGuardBuysTwice`); a crash between sending and recording, or a record that is lost, costs one
  BUY each time (`GoalLimits.BoundIsReached`, `GoalLimits.LostRecordBuysTwice`); a recorded token is never cleared,
  so one BUY can be followed by any number of SELLs (`GoalLimits.SellsAreUnbounded`).
- A blank before the dash of a pair makes the written order decide: "WETH - USDC" is bought as ether
  (`SwapToken.BlanksDecide`).
- A resumed runner sells without asking the rate limiter and without a slippage floor
  (`GoalResume.TransactionsAreChecked`, `GoalRunner.GoalTask.ExitPosition`).
- An operator's pause or resume takes a goal out of a terminal status (`GoalLimits.ReopenedGoalBuysAgain`). Reads
  and writes of a record are separate store calls, so a failure can be undone and a recorded token wiped
  (`GoalLimits.StaleStepUndoesFailure`, `GoalLimits.StalePauseForgetsToken`).
- The monitoring loop leaves on Cancelled only, not on Completed or Failed (`GoalLoops.EndedGoalIsWatchedOn`).
- Refused checks use up the hourly limit too (`Safeguards.RefusalsLockOut`).
- One pass can miss the largest fall once a curve goes below zero, which a yield below -36500 per cent brings about
  (`Backtest.OnePassIsRightWhen`, `Backtest.RunDefeatsOnePass`).
- A chain named "all" and the unfiltered list share one cache entry: whichever is asked for first answers for both,
  in either direction (`YieldProvider.ChainNamedAllCollides`, `YieldProvider.AnswerIsOwnWhen`). Thresholds looser
  than the cache's are silently raised, and a colon inside a name lets pools of different names be merged into one.
- A claim that does not return leaves its heartbeat running: when a call that nothing catches raises, or its run
  never ends (`Executor.Tracker.ProcessClaim`).

## Model

| member | source | states |
|---|---|---|
| EthAmount.ParseMeaning | keymaster/src/routes.rs:1074-1096 | text "w.d" of plain digits is its decimal value times 10^18 rounded toward zero, accepted exactly when the whole part is below 2^128 |
| EthAmount.NoPointMeansWhole | keymaster/src/routes.rs:1076-1081 | a text without a point is read as if ".0" followed it |
| EthAmount.WholeAmount | keymaster/src/routes.rs:1076-1081 | digits without a point are that many times 10^18 wei, refused exactly from 2^128 on |
| EthAmount.RefusedForms | keymaster/src/routes.rs:1074-1096 | without a point exactly the u128 texts are accepted, so the empty one is not; texts with two or more points never are |
| Decimal.ParsedWhen | keymaster/src/routes.rs:1078-1091 | a u128 text is exactly one or more digits below 2^128 with at most one plus sign in front, and denotes them |
| EthAmount.RoundTrip | keymaster/src/routes.rs:1074-1109 | parsing the printed form of an amount gives it back exactly when its whole ETH part is below 2^128 |
| EthAmount.PrintedForm | keymaster/src/routes.rs:1098-1109 | the printed form has one to eighteen decimals, no superfluous trailing zero, and they denote the remainder |
| EthAmount.ExtraDecimalsIgnored | keymaster/src/routes.rs:1080-1092 | whatever follows the eighteenth decimal, digits or not, never changes the outcome |
| EthAmount.NeverWraps | keymaster/src/routes.rs:1074-1096 | no accepted text overflows 256 bits, not even times 10000 |
| EthAmount.AcceptedForms | keymaster/src/routes.rs:1074-1096 | exactly which texts with one point are accepted: left of it nothing or a u128; right of it the first eighteen characters are digits but for a plus sign in front |
| EthAmount.PlusInDecimals | keymaster/src/routes.rs:1080-1092 | for all digits, a plus sign before the decimals takes the place of a zero |
| EthAmount.ReadAtItsValue | keymaster/src/routes.rs:1074-1096 | an accepted text with plus signs is read at the value of its digits exactly when none stands before the decimals or the first eighteen of them are zeros |
| Keystore.Keystore.UpdateCap | keymaster/src/keystore.rs:199-208 | sets one wallet's cap, or reports a missing wallet and changes nothing |
| Keystore.Keystore.LogTx | keymaster/src/keystore.rs:228-241 | appends one row or none |
| Keystore.Keystore.ResetTotalSent | keymaster/src/keystore.rs:210-226 | the wallet's confirmed native sends drop to zero and its total to raw transactions plus native swaps; the count returned is the number of rows that changed |
| Keystore.Keystore.TotalSentWei | keymaster/src/keystore.rs:282-304 | the loop's total is the sum over selected rows, skipping text that is no u128 |
| Keystore.TotalGrows | keymaster/src/keystore.rs:282-304 | a row adds its u128 value to its wallet's total exactly when it is a confirmed native send, raw transaction or native swap |
| Keystore.TotalIsThreeTypes | keymaster/src/keystore.rs:282-304 | the total is the sum of those three types |
| Keystore.ResetRows | keymaster/src/keystore.rs:219-224 | row by row: a reset changes the status of the wallet's confirmed native sends and nothing else |
| Keystore.ReportedRows | keymaster/src/keystore.rs:219-225 | what a reset reports is the number of rows it changes |
| Keystore.ResetClearsOneSum | keymaster/src/keystore.rs:219-224 | it clears the sum of that wallet's native sends and leaves every other sum, of any type and wallet |
| Keystore.ResetDropsNativePart | keymaster/src/keystore.rs:210-226 | a reset leaves as total exactly the raw transactions and native swaps, the total less the sum of native sends |
| Keystore.ResetIsLocal | keymaster/src/keystore.rs:210-226 | no other wallet's total changes |
| CapGate.PassKeepsCap | keymaster/src/routes.rs:263-298 | the comparison passes exactly when total plus value is within the cap, and the logged spend then keeps it so |
| CapGate.VerdictWhen | keymaster/src/routes.rs:267-291 | each verdict of the comparison by its condition on cap text, total and value |
| CapGate.HugeSpendEscapesTotal | keymaster/src/keystore.rs:282-304 | a logged spend adds its value to the total only below 2^128 wei |
| CapGate.UpdatedCapMeaning | keymaster/src/routes.rs:139-148 | for every accepted cap text: zero lifts the cap, 2^128 and above refuses all, else it is the bound |
| CapGate.SubWeiCapIsUnlimited | keymaster/src/routes.rs:139-148 | every cap below one wei lifts the cap |
| CapGate.ResetUnblocksWhen | keymaster/src/routes.rs:150-168 | for every value: after a reset a wallet can spend it exactly when it fits what native swaps and raw transactions leave of the cap |
| CapGate.RefusedWhen | keymaster/src/routes.rs:263-298 | after any sequential history a spend is refused exactly when it is a native send, a native swap or a raw transaction with value, and the cap in force is no u128 or would be exceeded |
| CapGate.SpendCounts | keymaster/src/routes.rs:405-442 | an accepted spend adds its value to its own wallet's total exactly when it was broadcast, is no token swap and is below 2^128 wei |
| CapGate.CommandsDo | keymaster/src/routes.rs:139-168 | a cap change touches one cap; a reset leaves one wallet the total of raw transactions and native swaps and every other wallet its own |
| CapGate.AcceptedSpendWithinCap | keymaster/src/routes.rs:263-298 | after any sequential history a capped spend that is accepted and broadcast leaves the total, grown by its value, within the cap then in force |
| CapGate.BlockedUntil | keymaster/src/routes.rs:139-168 | a wallet over its cap stays so exactly until the cap is lifted or raised to the total, or a reset leaves no more than the cap |
| CapGate.BlockedRefusesZero | keymaster/src/routes.rs:275-291 | a wallet is over its cap exactly when even a native send of nothing is refused |
| CapGate.OverCapStaysRefused | keymaster/src/routes.rs:275-291 | over any spends, lower caps, insufficient resets and other wallets' operations every capped spend of it is refused |
| CapGate.SufficientReset | keymaster/src/routes.rs:150-168 | a reset is sufficient exactly when the total less its native-send part is within the cap, told by the log before it |
| CapProtocol.StepKeepsTame | keymaster/src/routes.rs:263-298 | every step keeps each in-flight spend within the cap it was compared with |
| CapProtocol.ComparisonAdmitsWhen | keymaster/src/routes.rs:263-298 | a handler goes on exactly when its spend is not capped, the cap it read is none, or total and value fit it |
| CapProtocol.HandlersLog | keymaster/src/routes.rs:300-442 | what the log gains when a simulation, a broadcast or an insert ends, and when it gains nothing |
| CapProtocol.StepKeepsBound | keymaster/src/routes.rs:263-423 | every step keeps total plus in-flight value within one cap per spend in flight |
| CapProtocol.TotalBounded | keymaster/src/routes.rs:263-423 | in every interleaving with at most n spends in flight the total, with all in flight, stays within n caps |
| CapProtocol.CapHoldsOneAtATime | keymaster/src/routes.rs:475-499 | with at most one in flight the cap is never exceeded |
| CapProtocol.BoundIsReached | keymaster/src/routes.rs:668-745 | for every n some interleaving of n spends brings the total to n caps |
| CapOutflow.StepBalances | keymaster/src/routes.rs:263-423 | every step balances what the log counts or is about to, what a reset drops and what leaves unseen or unlogged against what really leaves |
| CapOutflow.OutflowBounded | keymaster/src/routes.rs:263-423 | over every interleaving what really leaves is at most n caps plus what resets drop plus what leaves unseen or unlogged |
| CapOutflow.OutflowIsUnbounded | keymaster/src/routes.rs:374-442 | with one spend at a time and the cap left alone, for every k some run takes k caps out by sends that report an error, and counts nothing |
| SendNative.FeePlusNet | keymaster/src/routes.rs:32-39 | fee plus net is the amount, below the dust threshold and even where the product wraps |
| SendNative.FeeIsFivePercent | keymaster/src/routes.rs:22-39 | no fee below 0.002 ETH, five per cent rounded down from there |
| SendNative.AtMostOneSent | keymaster/src/routes.rs:371-404 | of all broadcast attempts only the last can have been sent |
| SendNative.AttemptsAre | keymaster/src/routes.rs:371-400 | a call goes on to its second and third broadcast exactly after a transient error |
| SendNative.CallTakes | keymaster/src/routes.rs:327-404 | what an admitted call takes from the wallet, told by replies, amount and fee setting alone |
| SendNative.ResetKeepsLoggedSends | keymaster/src/keystore.rs:210-226 | a reset does not change the sum of logged native sends |
| SendNative.Sender.Send | keymaster/src/routes.rs:235-442 | refused exactly for a killed switch, a missing or inactive wallet, a bad address, amount or cap, an exceeded cap or a missing key, and then nothing changes; otherwise what each outcome takes; a completed capped send leaves the total within the cap; wei out stays logged sends plus stranded fees plus unlogged sends |
| SendNative.Sender.Dispatch | keymaster/src/routes.rs:327-442 | an admitted call takes the whole amount if its transfer is sent, else at most the fee |
| SendNative.Sender.SendFee | keymaster/src/routes.rs:338-369 | a failed fee transfer never stops the send |
| SendNative.Sender.Broadcast | keymaster/src/routes.rs:371-400 | retries only transient errors, at most three attempts |
| SendNative.Sender.Record | keymaster/src/routes.rs:411-442 | one row per outcome; a failed insert replaces the outcome |
| SendNative.Sender.ResetCap | keymaster/src/routes.rs:150-168 | a cap reset leaves the total of raw transactions and native swaps and keeps the account balanced |
| KillSwitch.Switch.Load | keymaster/src/kill_switch.rs:31-58 | the check passes exactly when the file does not hold a whole activation: absent or unreadable means off |
| KillSwitch.Switch.Activate | keymaster/src/kill_switch.rs:64-74 | from then on the check fails; the file is written, untouched or torn as the write ends |
| KillSwitch.Switch.Deactivate | keymaster/src/kill_switch.rs:76-85 | from then on the check passes; the file likewise |
| KillSwitch.FlagIsIntended | keymaster/src/kill_switch.rs:31-129 | over restarts, with commands one at a time and handlers at any moment, the flag is the last command's from its store on, and the file's between commands |
| KillSwitch.NoBroadcastAfterActivation | keymaster/src/routes.rs:235-239 | a handler that starts after the store of an activation and before the next deactivation never broadcasts, whatever follows |
| KillSwitch.BroadcastsWhen | keymaster/src/routes.rs:235-239 | with orderly commands a handler that starts now can broadcast exactly when the last command was no activation |
| KillSwitch.FileIsLastWritten | keymaster/src/kill_switch.rs:102-129 | in any run the file means the last whole write |
| KillSwitch.RestartStopsWhen | keymaster/src/kill_switch.rs:31-58 | after any run, a restart blocks handlers exactly when the last write was a whole one of an activation |
| KillSwitch.OverlapLosesActivation | keymaster/src/kill_switch.rs:64-85 | two overlapping commands can lose an activation at the next restart |
| Swap.SwapRun.Execute | keymaster/src/swap.rs:209-332 | the stepwise sequence computes the specified outcome: chain, transactions sent, failed step |
| Swap.CallEndsWhen | keymaster/src/swap.rs:209-332 | for every chain and all answers: exactly when a call ends well, with an unreadable balance or allowance, with a failed wrap, approval or swap |
| Swap.CallLeaves | keymaster/src/swap.rs:209-332 | the balances every call leaves by what landed, and the allowance after a call that ended well |
| Swap.EachStepOnce | keymaster/src/swap.rs:223-332 | at most one wrap, one approve, one swap, in order and of the right size; the router is called only with allowance and, for WETH, balance |
| Swap.Conservation | keymaster/src/swap.rs:209-332 | ETH plus input token changes only by top-ups and the exact input of a landed swap, which pays at least the floor; Ok means it landed |
| Swap.WrapsWithinShortfall | keymaster/src/swap.rs:223-272 | ETH falls by exactly what a landed wrap took, never more than the WETH shortfall |
| Swap.FailedCallSwappedWhen | keymaster/src/swap.rs:310-325 | a call that reports failure has swapped exactly when its swap landed unseen with at least the floor and the balance was there |
| Swap.RetryAfterUnseenSwap | keymaster/src/swap.rs:310-325 | whenever a failed call has swapped and the balance allows it, the same call again can swap again |
| SwapRetries.StepKeepsSound | keymaster/src/swap.rs:209-332 | every step of every call, every late transaction, top-up and crash keeps the accounts below |
| SwapRetries.CallGoesTo | keymaster/src/swap.rs:209-332 | what brings a call to each of its points, and that nothing else does |
| SwapRetries.CallGoesOn | keymaster/src/swap.rs:209-332 | which events bring a call on, and that no other does |
| SwapRetries.LeftPendingWhen | keymaster/src/rpc.rs:86-91 | a transaction is left pending exactly by a call that gives up on one it may have handed over |
| SwapRetries.RetriesAreBounded | keymaster/src/swap.rs:209-332 | over any calls in any interleaving, transactions landing as late as they like, wraps stay within the first shortfall, landed inputs and wraps decided while others were under way; all is conserved; no call brings more than one swap and every success has brought one |
| SwapRetries.DuplicatesWhen | keymaster/src/swap.rs:223-250 | the ledger of duplicated wraps grows exactly at a read that decides one while another is decided, sent or pending |
| SwapRetries.ExcessNeedsOverlap | keymaster/src/swap.rs:223-250 | that ledger is empty exactly in runs without such a read |
| SwapRetries.NoOverlapNoExcess | keymaster/src/swap.rs:223-250 | without such a read, wraps stay within shortfall and landed inputs |
| SwapRetries.OverrunsWhen | keymaster/src/swap.rs:223-272 | given the ETH, and with no further wrap decided, ETH wrapped can come to exceed shortfall and landed inputs exactly when what is wrapped and under way together already does |
| SwapRetries.DecisionOverrunsWhen | keymaster/src/swap.rs:223-250 | a read that decides a wrap opens that possibility exactly when they do with its shortfall added |
| SwapRetries.LateWrapsPileUp | keymaster/src/rpc.rs:86-91 | wherever the wallet is short, n + 1 calls that time out wrap the shortfall n + 1 times with no swap |
| SwapRetries.OneCallIsARun | keymaster/src/swap.rs:209-332 | the stepwise sequence of one call is a run of this machine, to the same chain and end |
| SwapToken.ResolvedIsAddress | gateway-rs/src/goal_runner.rs:1272-1291 | whatever resolves is a 42-character 0x address |
| SwapToken.PairResolvesTo | gateway-rs/src/goal_runner.rs:1272-1291 | with any blanks around its dash a pair resolves to its first known name in written order, ether going last only if written first with no blank after it |
| SwapToken.PairOrderIsIrrelevant | gateway-rs/src/goal_runner.rs:1277-1288 | exactly when the order in which a pair is written does not matter |
| SwapToken.BlanksDecide | gateway-rs/src/goal_runner.rs:1277-1288 | with a blank before the dash, WETH and USDC resolve to whichever is written first |
| SwapToken.BaseNames | gateway-rs/src/goal_runner.rs:1244-1270 | the names known on Base, in any case and with any blanks around them, and their addresses |
| SwapToken.BaseSepoliaNames | gateway-rs/src/goal_runner.rs:1244-1270 | the same on Base Sepolia |
| SwapToken.SameUpperWhen | gateway-rs/src/goal_runner.rs:1245 | two texts agree in upper case exactly when they differ in the case of letters at most |
| SwapToken.SlippageIsNearest | gateway-rs/src/goal_runner.rs:1381 | the tolerance is the nearest whole number of basis points, 0 below and 10000 above the allowed range |
| SwapToken.SlippageFloorHolds | gateway-rs/src/goal_runner.rs:1376-1385 | the floor never exceeds the quote less slippage, is exact to one wei exactly when the product does not saturate, and is none for bad text |
| GoalPaths.RoundBeginsWhen | gateway-rs/src/goal_runner.rs:105-169 | a round begins exactly with no cancel, kill flag or passed deadline on a pending or running goal that could be loaded |
| GoalPaths.RoundGoesOnWhen | gateway-rs/src/goal_runner.rs:171-262 | it goes on to scouting, or to the stored position, exactly when its wallet is known |
| GoalPaths.StagesAreEarned | gateway-rs/src/goal_runner.rs:343-599 | risk is entered exactly from a scout's go-ahead, trading from a risk approval, execution from a trader's go-ahead on two different addresses, with no cancel between |
| GoalPaths.AgentsTurnDown | gateway-rs/src/goal_runner.rs:343-532 | a blocked risk gate or a holding trader leads back to the head with store and deeds unchanged, giving up to a failed goal |
| GoalPaths.PairsAreRetried | gateway-rs/src/goal_runner.rs:533-599 | a pair that does not resolve to two addresses is retried four times in a row and fails the goal at the fifth |
| GoalPaths.RequestsStartWhen | gateway-rs/src/goal_runner.rs:604-850 | each kind of first request is made exactly after its own checks |
| GoalPaths.RequestsRepeatWhen | gateway-rs/src/agents/executor.rs:66-97 | a request is repeated exactly when it did not connect or was not answered in time |
| GoalPaths.RequestGoesOutWhen | gateway-rs/src/agents/executor.rs:66-97 | and goes out exactly with a wallet and a connection |
| GoalPaths.DeedsAre | gateway-rs/src/goal_runner.rs:648-850 | what every step requests or settles on, by its point and answers |
| GoalPaths.CallsEndWhen | gateway-rs/src/agents/executor.rs:66-145 | how a BUY, a SELL and a fee end, and where each end leads |
| GoalPaths.PositionsStartWhen | gateway-rs/src/goal_runner.rs:612-736 | a position is taken up exactly after its record or from the store |
| GoalPaths.PositionsMoveWhen | gateway-rs/src/goal_runner.rs:738-882 | and watched on, left, rotated or ended exactly as the watch says, unless a cancel outranks it |
| GoalPaths.GoalFailsWhen | gateway-rs/src/goal_runner.rs:90-979 | the reasons a goal is failed for, and no others |
| GoalPaths.RunnerStopsWhen | gateway-rs/src/goal_runner.rs:90-979 | the points where the runner ends, and where it goes back to the head |
| GoalPaths.VariablesAre | gateway-rs/src/goal_runner.rs:90-979 | which step changes each of the runner's other variables |
| GoalPaths.RecordIs | gateway-rs/src/goal_runner.rs:90-979 | the whole record every step leaves in the store |
| GoalPaths.BootStartsWhen | gateway-rs/src/main.rs:389-475 | boot starts a runner exactly for a running or paused goal, at the position for monitoring and exiting and for executing with a recorded token, else at the top |
| GoalPaths.OthersDo | gateway-rs/src/routes/goals.rs:156-173 | what a cancel, another writer, the halves of an update and a crash change |
| GoalPaths.FaultsAre | gateway-rs/src/goal_runner.rs:612-710 | each counted fault is exactly what it is named after |
| GoalSafety.NextKeepsGood | gateway-rs/src/goal_runner.rs:90-979 | every step, crash, boot or stale write keeps wallet, position and history consistent |
| GoalSafety.OneWallet | gateway-rs/src/goal_runner.rs:171-215 | every BUY and SELL of every run is sent from the wallet the goal was created with; every exit fee names the goal's own id in its place |
| GoalSafety.BuysAreBetweenAddresses | gateway-rs/src/goal_runner.rs:533-594 | every BUY is between two addresses that differ ignoring case |
| GoalSafety.SellsFollowTheirBuy | gateway-rs/src/goal_runner.rs:793-850 | every SELL, normal or resumed, follows a BUY of its token from its wallet and names the non-empty, non-zero amount settled for it |
| GoalSafety.FeesFollowSells | gateway-rs/src/fees.rs:59-104 | every fee request follows a SELL with nothing but fee requests between |
| GoalWrites.ActLeaves | gateway-rs/src/goal_runner.rs:90-979 | the status and token every runner step leaves in the store |
| GoalWrites.LosesEndWhen | gateway-rs/src/routes/goals.rs:156-173 | exactly which steps take a goal out of a terminal status |
| GoalWrites.LosesTokenWhen | gateway-rs/src/routes/goals.rs:156-173 | exactly which steps take a recorded token away |
| GoalBuys.StepPays | gateway-rs/src/goal_runner.rs:612-710 | no step requests a BUY without using budget; only faults and the first BUY add budget |
| GoalBuys.BuysBounded | gateway-rs/src/goal_runner.rs:612-710 | in every run BUY requests are at most one plus window crashes, lost records, unread guards, repeated requests and setbacks |
| GoalBuys.ReliableBuysBounded | gateway-rs/src/agents/executor.rs:66-97 | with a reliable store, live goals paused and resumed at will, they are at most one plus the crashes between sending and recording plus the requests repeated for want of an answer |
| GoalBuys.ThreeBuysPerWindow | gateway-rs/src/agents/executor.rs:66-97 | however late the answers, at most three, and three more for each such crash |
| GoalBuys.TimelyBuysBounded | gateway-rs/src/main.rs:411-450 | with answers in time they are at most one plus the crashes between sending and recording |
| GoalBuys.NoBuyOnceRecorded | gateway-rs/src/goal_runner.rs:604-627 | once a token is recorded no iteration, resume or reboot requests another BUY while the guard can read it and nobody wipes it |
| GoalBuys.TameStep | gateway-rs/src/sentinel_monitor.rs:373-412 | with reads and writes as one step and no goal reopened that is over, no step loses a terminal status or a token |
| GoalHalts.TerminalSticks | gateway-rs/src/goal_runner.rs:145-169 | a terminal status then stays terminal in every run; at most a BUY, a SELL and an exit fee still go out, one request each with timely answers and three without, and none from the loop head or after the runner is gone |
| GoalHalts.TerminalIsLeft | gateway-rs/src/main.rs:389-397 | a runner that loads a terminal goal exits, and boot does not resume it |
| GoalHalts.KillFlagHalts | gateway-rs/src/goal_runner.rs:122-131 | while the kill flag stays set, reboots included, the same three swaps at most go out, counted the same way |
| GoalHalts.CancelAllowsAtMostTwo | gateway-rs/src/goal_runner.rs:864-882 | after the cancel signal and before the next boot at most two swaps still go out, as a SELL and its fee, counted the same way |
| GoalResume.RunKeepsRouted | gateway-rs/src/main.rs:411-450 | over every run with a reliable store, pauses and resumes of live goals included, the stored step, token and amount agree with where the runner is |
| GoalResume.CrashKeepsPosition | gateway-rs/src/main.rs:389-450 | a crash while a position of a running or paused goal is held, and the boot after it, lead straight back to monitoring that very token and amount |
| GoalResume.CrashLeadsTo | gateway-rs/src/main.rs:389-450 | over every reliable run, a crash and the boot after it lead from each point to monitoring or to the top as listed |
| GoalResume.ResumedRunnerWatches | gateway-rs/src/goal_runner.rs:217-262 | the resumed runner watches what the store holds, or fails the goal when it holds nothing |
| GoalResume.TransactionsAreChecked | gateway-rs/src/goal_runner.rs:604-636 | the step before each first request has made the checks: rate limiter and guard for a BUY, known WETH and, unless resumed without floor, rate limiter for a SELL, a fee due for a fee |
| GoalRounds.RequestsAreLimited | gateway-rs/src/goal_runner.rs:629-636 | over every run the requests of BUYs and normal SELLs are at most the rate checks passed, or three times as many with late answers |
| GoalRounds.BuysAreLimited | gateway-rs/src/goal_runner.rs:629-661 | every BUY of a run is among those requests |
| GoalRounds.BuysNeedApproval | gateway-rs/src/goal_runner.rs:426-440 | over every run BUY requests are at most one per risk approval, or three with late answers |
| GoalRounds.SellsPerRound | gateway-rs/src/goal_runner.rs:738-850 | over every run SELL requests are at most one per round begun, or three with late answers |
| GoalResume.FeesNeedASell | gateway-rs/src/goal_runner.rs:864-880 | a fee is considered only after a SELL of the normal path that went through |
| GoalLimits.BoundIsReached | gateway-rs/src/goal_runner.rs:648-710 | for every n a run with a reliable store, timely answers and n window crashes requests n + 1 BUYs |
| GoalLimits.LateAnswersReachBound | gateway-rs/src/agents/executor.rs:66-97 | with late answers, for every n, three times as many |
| GoalLimits.ThreeBuysWithoutCrash | gateway-rs/src/agents/executor.rs:72-97 | a reliable run without crash or boot requests one BUY three times |
| GoalLimits.LostRecordBuysTwice | gateway-rs/src/goal_runner.rs:698-708 | a BUY whose record is lost is made again |
| GoalLimits.SellsAreUnbounded | gateway-rs/src/goal_runner.rs:612-627 | for every n a run with no fault, crash or boot requests one BUY and n SELLs |
| GoalLimits.UnreadGuardBuysTwice | gateway-rs/src/goal_runner.rs:612-623 | a failed guard read makes a second BUY without any crash |
| GoalLimits.ReopenedGoalBuysAgain | gateway-rs/src/routes/goals.rs:809-839 | a resumed failed goal buys again after a boot |
| GoalLimits.StaleStepUndoesFailure | gateway-rs/src/routes/goals.rs:168-173 | a failure written between the halves of a step update is undone |
| GoalLimits.StalePauseForgetsToken | gateway-rs/src/routes/goals.rs:156-166 | a pause that read before the record and writes after it wipes the token |
| GoalRunner.GoalTask.RunGoal | gateway-rs/src/goal_runner.rs:90-979 | the runner's loop, with others writing at every await and the process dying anywhere, is a run of the machine; its BUYs and SELLs use the goal's wallet and BUYs stay within the machine's budget |
| GoalRunner.GoalTask.Round | gateway-rs/src/goal_runner.rs:103-977 | one round takes the machine from the loop head to the head, to its end, or is cut off |
| GoalRunner.GoalTask.LoadGoal | gateway-rs/src/goal_runner.rs:105-169 | cancel, kill flag, deadline, load and status, in that order |
| GoalRunner.GoalTask.ResolveWallet | gateway-rs/src/goal_runner.rs:171-215 | the wallet is resolved once and persisted if it can be |
| GoalRunner.GoalTask.Resumed | gateway-rs/src/goal_runner.rs:217-335 | a resumed first round watches and sells the stored position, or fails the goal without one |
| GoalRunner.GoalTask.Consult | gateway-rs/src/goal_runner.rs:343-440 | scouting or risk ends at the next stage, back at the head or with the goal failed, and the machine has run along: store and deeds are its own |
| GoalRunner.GoalTask.Trade | gateway-rs/src/goal_runner.rs:442-599 | trading ends about to execute the returned pair, back at the head, or with the goal failed after the last retry; the machine has run along |
| GoalRunner.GoalTask.BuyOnce | gateway-rs/src/goal_runner.rs:601-712 | guard, rate check, BUY and record end watching the returned position, back at the head, or with the goal failed; every request is a deed of the machine |
| GoalRunner.GoalTask.ExecuteSwap | gateway-rs/src/agents/executor.rs:66-145 | the executor's loop makes up to three requests and ends where the machine is after a swap that went through, or one that failed |
| GoalRunner.GoalTask.MonitorPosition | gateway-rs/src/goal_runner.rs:738-786 | a watch ends about to leave the position, back at the head, or with the runner gone, having written what that end writes; no deed is done |
| GoalRunner.GoalTask.ExitPosition | gateway-rs/src/goal_runner.rs:788-880 | leaving ends past SELL and fee, back at the head for a resumed runner, or with the goal failed before any request |
| GoalRunner.GoalTask.CollectExitFee | gateway-rs/src/fees.rs:59-104 | a due fee is swapped under the goal's id, whatever comes of it |
| GoalRunner.GoalTask.Compound | gateway-rs/src/goal_runner.rs:882-976 | ends back at the head or, with the status written, with the runner gone |
| GoalRunner.GoalTask.FailGoal | gateway-rs/src/goal_runner.rs:1336-1362 | the failure is written if the store lets it, and the runner ends |
| GoalLoops.WithRetry | gateway-rs/src/goal_runner.rs:1193-1240 | the result is that of the first success or permanent error, else the third, unless cancelled before |
| GoalLoops.PermanentWhen | gateway-rs/src/goal_runner.rs:1212-1224 | an error is permanent exactly when one of three phrases stands in it, in any case |
| GoalLoops.WatchPasses | gateway-rs/src/goal_runner.rs:1034-1177 | the watch ends at the first pass that ends it; three unreadable answers since the last readable one are such a pass |
| GoalLoops.OneMorePass | gateway-rs/src/goal_runner.rs:1105-1160 | unreadable answers are counted since the last readable one, and not while paused |
| GoalLoops.WatchEndsWhen | gateway-rs/src/goal_runner.rs:1034-1177 | each way a pass can end the watch, by its exact condition |
| GoalLoops.RunMonitoringLoop | gateway-rs/src/goal_runner.rs:992-1189 | the result is what that pass says, a cancel seen on leaving outranking all but the testnet timeout, and the goal is failed exactly when the pass could not evaluate it |
| GoalLoops.ResultsMatchMachine | gateway-rs/src/goal_runner.rs:738-786 | the machine's watch goes where these results send the runner |
| GoalLoops.EndedGoalIsWatchedOn | gateway-rs/src/goal_runner.rs:1036-1049 | a stored Completed or Failed changes nothing about a pass |
| GoalLoops.ResumeGoals | gateway-rs/src/main.rs:389-475 | a runner for exactly the running and paused goals, with the right counts |
| GoalLoops.CountIsNumber | gateway-rs/src/main.rs:389-475 | the counts reported are numbers of goals |
| GoalLoops.EachGoalItsOwnRoute | gateway-rs/src/main.rs:411-450 | each goal starts where its own step and token say |
| GoalLoops.BootMatchesMachine | gateway-rs/src/main.rs:389-475 | the boot loop and the machine's boot agree |
| Sentinel.FailsExactlyWhen | gateway-rs/src/sentinel_monitor.rs:212-258 | a goal is failed exactly for want of a positive price or with its whole stake lost |
| Sentinel.JudgedWhen | gateway-rs/src/sentinel_monitor.rs:135-330 | exactly when a goal is completed, exited or left alone |
| Sentinel.ActsOnFirst | gateway-rs/src/sentinel_monitor.rs:124-143 | a tick acts on an id at its first listing in monitoring |
| Sentinel.WritesWhen | gateway-rs/src/sentinel_monitor.rs:373-412 | exactly which goals a tick completes or fails |
| Sentinel.SignalsWhen | gateway-rs/src/sentinel_monitor.rs:258-330 | exactly which exits it signals, and each once |
| Sentinel.Monitor.Tick | gateway-rs/src/sentinel_monitor.rs:108-369 | each goal in monitoring is acted on once, only statuses change, each exit is signalled once; an error comes from the listing, from publishing an exit, or from the count after all goals, and each says what was done before it |
| Sentinel.Monitor.End | gateway-rs/src/sentinel_monitor.rs:373-412 | only the status of the one goal changes |
| Safeguards.Limiter.IncrementAndRead | gateway-rs/src/safeguards.rs:45-58 | increment, expiry and read, cut short by any fault |
| Safeguards.Limiter.CheckTxRateLimit | gateway-rs/src/safeguards.rs:62-83 | no limit counts nothing; a fault refuses; else the two hours are compared with the limit |
| Safeguards.StoreIsFaithful | gateway-rs/src/safeguards.rs:45-58 | in every run, whatever the clock, the counters of every hour still current are its attempts; expired ones are deleted |
| Safeguards.NeverExpiresWhileReadable | gateway-rs/src/safeguards.rs:9-13 | unless the clock has gone back, what is read for the current or prior hour is what was attempted in it |
| Safeguards.AttemptsAre | gateway-rs/src/safeguards.rs:45-58 | attempts of an hour are those whose clock reading lies in it and that reached the counter |
| Safeguards.AllowedExactlyWhen | gateway-rs/src/safeguards.rs:62-83 | a check is allowed exactly when the attempts of this hour and the last are at most the limit |
| Safeguards.AtMostMaxPerWindow | gateway-rs/src/safeguards.rs:45-83 | at most the limit is allowed in any 3600 seconds of any run |
| Safeguards.RefusalsLockOut | gateway-rs/src/safeguards.rs:51-52 | enough attempts in one hour shut out the whole next hour |
| RateLimit.TokenBucket.TryConsume | gateway-rs/src/middleware/rate_limit.rs:31-45 | the bucket afterwards, the answer and the wait |
| RateLimit.RateLimiter.Check | gateway-rs/src/middleware/rate_limit.rs:70-103 | only the address asked for changes, a new one starts full |
| RateLimit.TokensInRange | gateway-rs/src/middleware/rate_limit.rs:31-45 | tokens stay between zero and capacity in every run |
| RateLimit.GrantedBound | gateway-rs/src/middleware/rate_limit.rs:31-45 | requests let through in any stretch are at most capacity plus refill |
| RateLimit.AtMostTwiceTheLimit | gateway-rs/src/middleware/rate_limit.rs:60-67 | at most twice the limit in any configured window |
| RateLimit.TwiceTheLimitIsReached | gateway-rs/src/middleware/rate_limit.rs:60-67 | and that many can get through |
| RateLimit.WaitIsExact | gateway-rs/src/middleware/rate_limit.rs:38-44 | a retry succeeds exactly from the returned wait on |
| RateLimit.ZeroLimitRefuses | gateway-rs/src/middleware/rate_limit.rs:31-45 | a limit of zero refuses every request |
| RateLimit.AddressesAreIndependent | gateway-rs/src/middleware/rate_limit.rs:70-80 | each address's bucket is that of its own requests alone |
| RateLimit.AnswersAreIndependent | gateway-rs/src/middleware/rate_limit.rs:70-80 | and so is each answer |
| Backtest.MaxDrawdownPct | gateway-rs/src/backtest/runner.rs:117-132 | the loop computes the one-pass drawdown |
| Backtest.OnePassIsLargestFall | gateway-rs/src/backtest/runner.rs:117-132 | on a curve without negative values that is the largest percentage fall over all pairs |
| Backtest.ZeroWhenNeverFalling | gateway-rs/src/backtest/runner.rs:115-132 | it is zero exactly when the curve never falls |
| Backtest.OnePassIsRightWhen | gateway-rs/src/backtest/runner.rs:117-132 | on a curve that falls below zero it is the largest fall exactly when some largest fall starts from the only positive value up to its end |
| Backtest.NegativeValuesDefeatOnePass | gateway-rs/src/backtest/runner.rs:124-129 | so it can miss the largest fall |
| Backtest.RunGoesNegativeWhen | gateway-rs/src/backtest/runner.rs:188-227 | a run's curve has a negative value exactly when a position of positive capital meets a negative daily factor |
| Backtest.RunDefeatsOnePass | gateway-rs/src/backtest/runner.rs:176-227 | for every entry threshold some run has the curve on which the pass misses it |
| Backtest.RunRulesMode | gateway-rs/src/backtest/runner.rs:176-264 | the loop's result is that of the simulation: trades, wins, curve, drawdown |
| BacktestHoldings.OpenBar | gateway-rs/src/backtest/runner.rs:188-227 | one bar with a position: its yield, when it is closed and with what gain, when opened again |
| BacktestHoldings.FlatBar | gateway-rs/src/backtest/runner.rs:218-227 | one bar without: opened exactly when the yield reaches the threshold |
| BacktestHoldings.HeldWhen | gateway-rs/src/backtest/runner.rs:188-227 | over any bars a position is open exactly when some bar opened one and since then no yield was below two per cent and no price a twentieth below an earlier one |
| BacktestHoldings.OpensWhen | gateway-rs/src/backtest/runner.rs:218-227 | a bar opens a position exactly when its yield reaches the threshold and none is held or the held one is closed on it |
| BacktestHoldings.WinsAreGains | gateway-rs/src/backtest/runner.rs:204-246 | wins are the number of closed trades with a gain |
| BacktestHoldings.ReportMeans | gateway-rs/src/backtest/runner.rs:134-174 | profit, percentages, win rate, fees and curve of the report |
| BacktestHoldings.LastOnIsLast | gateway-rs/src/backtest/runner.rs:94-111 | a date has the value of its last sample |
| Backtest.SimulationIsGrowth | gateway-rs/src/backtest/runner.rs:188-227 | capital is the start times the factors of bars entered with a position; every entry is one trade |
| Backtest.TradesCompoundToCapital | gateway-rs/src/backtest/runner.rs:204-246 | with positive daily factors the closed trades compound to final over start capital |
| Backtest.NonNegativeApysNeverLose | gateway-rs/src/backtest/runner.rs:188-246 | non-negative yields force zero drawdown, non-negative pnl and no losing trade |
| Backtest.ZipSeries | gateway-rs/src/backtest/runner.rs:94-111 | one bar per date in both series, in order, with that date's last values |
| YieldProvider.BestIsFirstGreatest | gateway-rs/src/data/yield_provider.rs:240-253 | the kept pool of a key is the first with its greatest APY |
| YieldProvider.Merge | gateway-rs/src/data/yield_provider.rs:240-263 | one pool per key, always an input pool of greatest APY, sorted by APY descending |
| YieldProvider.MergedMeans | gateway-rs/src/data/yield_provider.rs:240-263 | what that is, pool by pool: order, one per key, and each the first of its key with its greatest APY |
| YieldProvider.GatheredAppend | gateway-rs/src/data/yield_provider.rs:215-238 | answers come in provider order, and one that failed adds nothing |
| YieldProvider.FetchAll | gateway-rs/src/data/yield_provider.rs:205-264 | several providers are merged and never fail; one is passed through as it is |
| YieldProvider.KeysAreInjective | gateway-rs/src/data/yield_provider.rs:244 | a pool's key belongs to its names alone exactly when none of them has a colon |
| YieldProvider.ColonMakesKeysCollide | gateway-rs/src/data/yield_provider.rs:244 | every pool with a colon in a name shares its key with one of other names |
| YieldProvider.DefiLlamaProvider.FetchPools | gateway-rs/src/data/yield_provider.rs:75-162 | for every chain and whatever was called before: the answer, and what is cached for every chain afterwards and from whose call |
| YieldProvider.CallMeets | gateway-rs/src/data/yield_provider.rs:75-162 | what a call is answered and files, from cache, upstream and thresholds alone |
| YieldProvider.FilteredAppend | gateway-rs/src/data/yield_provider.rs:106-148 | which upstream pools are kept for a chain and thresholds, and with which fields |
| YieldProvider.SameChainWhen | gateway-rs/src/data/yield_provider.rs:106-148 | chains are the same exactly when they differ in the case of letters at most |
| YieldProvider.FiledUnderOwnKey | gateway-rs/src/data/yield_provider.rs:81-84 | over any run every entry is filed under its chain's key, from an upstream some call met |
| YieldProvider.AnswersAreDirect | gateway-rs/src/data/yield_provider.rs:75-162 | over any run that meets one upstream, hit, miss and direct filter agree for every chain but the two that share a key, and each of those gets one of the two answers |
| YieldProvider.AnswerIsOwnWhen | gateway-rs/src/data/yield_provider.rs:81-104 | whoever filed the entry and whatever the upstream, a chain is served its own answer exactly when it is neither absent nor named "all" |
| YieldProvider.FilterTwice | gateway-rs/src/data/yield_provider.rs:95-159 | filtering the cached pools again is one filter at the stricter thresholds |
| YieldProvider.AnswerIsDirectWhen | gateway-rs/src/data/yield_provider.rs:111-128 | the answer is the direct filter of every upstream exactly for thresholds no looser than the cache's |
| YieldProvider.ChainNamedAllCollides | gateway-rs/src/data/yield_provider.rs:81-104 | of two calls, one for the chain "all" and one unfiltered, in either order, the second is served the first's answer, and that is its own exactly when every pool within the thresholds is on a chain called "all" |
| Executor.PollBoilerRun | nullboiler/tools/nulltracker_nullboiler_executor.py:279-330 | events for the run and each step are the statuses seen with repeats removed, a first part of them if posting raises midway; it returns data only on a terminal status |
| Executor.ReportRun | nullboiler/tools/nulltracker_nullboiler_executor.py:296-303 | keeps that for the run |
| Executor.ReportSteps | nullboiler/tools/nulltracker_nullboiler_executor.py:305-325 | keeps that for every step of a reply, malformed entries skipped, and stops at a post that raises |
| Executor.Observe | nullboiler/tools/nulltracker_nullboiler_executor.py:297-325 | posting a status exactly when it differs from the last keeps events and changes equal |
| Executor.ChangesAppend | nullboiler/tools/nulltracker_nullboiler_executor.py:297-303 | a status is a change exactly when it differs from the one before |
| Executor.PollShows | nullboiler/tools/nulltracker_nullboiler_executor.py:288-325 | what a poll shows of the run and of each step |
| Executor.EntryShows | nullboiler/tools/nulltracker_nullboiler_executor.py:305-325 | an entry shows a status of its own step only, a malformed one none |
| Executor.Tracker.Fail | nullboiler/tools/nulltracker_nullboiler_executor.py:179-191 | a refused report is only logged, an exception escapes |
| Executor.Tracker.ProcessClaim | nullboiler/tools/nulltracker_nullboiler_executor.py:402-488 | exactly when a claim ends in a transition and when in a fail report, and that its heartbeat is stopped then; it polls on exactly when its run never ends and escapes exactly when an uncaught call raises |

## Left out

- Floating point: `f64` values are reals, so rounding, NaN, infinities and JSON float round trips are not modelled,
  except that a missing price stands for every value that is not a positive finite one.
- Widths of counters: trade counts, retry counters and hourly counters are unbounded, and the running total is a
  natural number that does not wrap at 2^256.
- Text is ASCII; Unicode trimming, case folding and slicing inside a multi-byte character are not modelled.
- Amounts, profit, times, error texts and cycle counts of a goal: so target, stop loss, deadline and whether a fee
  is due are arbitrary verdicts.
- UUIDs are opaque: printing one and parsing it back gives it back, and other text does not parse.
- GoalRunner.GoalTask.RunGoal: other tasks write a status or send a cancel at each await; writers caught between
  reading and writing are in the goal machine only.
- A dry run is a run whose requests are answered without being made; its deeds are what would have been requested.
- CapOutflow.OutflowBounded: ETH wrapped for a swap that then fails stays in the wallet as WETH and is not counted
  as left; SwapRetries bounds it.
- Two runners for one goal at once, which the routes and the boot loop do not start.
- GoalRunner.GoalTask.MonitorPosition: what decides the end of a watch is an arbitrary answer there; the decisions
  themselves are in GoalLoops.RunMonitoringLoop.
- SendNative.Sender.Send: a broadcast error means the transaction was not sent; sends that went out all the same are
  in CapOutflow, late transactions of swaps in SwapRetries.
- Swap.SwapRun.Execute: within this one call a transaction lands at once or never and others top the wallet up only
  before the re-check; SwapRetries drops both restrictions.
- SwapRetries.RetriesAreBounded: all calls ask for the same swap, gas is not charged, and pending transactions may
  land in any order, which allows more than their nonces do.
- Safeguards.AtMostMaxPerWindow: the increment and the read of one check are one step, and the clock does not run
  backwards.
- RateLimit.RateLimiter.Check: the wait is not rounded up to whole seconds; requests for one address are handled one
  at a time.
- YieldProvider.DefiLlamaProvider.FetchPools: expiry is a cache that does not answer, and the fields of a pool that
  are only copied are dropped.
- YieldProvider.Merge: the in-place sort of map values is an insertion into a sorted list; pools of equal APY may
  come in any order, as in the source.
- Executor.PollBoilerRun: the heartbeat thread is a flag that a poll may find failed.
- Sweeping to the safe enters the cap protocol only as an uncounted log row; its amount, ninety-five per cent of the
  balance, is not modelled.
- The AUM sweep loop, which consults neither kill switch nor cap, and the amount of an exit fee.
- HTTP, Redis, SQLite, RPC and Telegram plumbing, key derivation and encryption, ABI encoding and address checksums.
- Agents, prompts and the parsing of their replies; agent-mode backtests; portfolio, launcher, sniper and
  coordinator.
- The dashboard and the picoclaw bridge.
