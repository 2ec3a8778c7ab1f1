# Task bookkeeping of the nexus dApp pages

This project models the state logic of three pages of a React dApp front end. Each page keeps
a newest-first list of task records in component state. A button handler checks its inputs,
puts a new record in front of the list and schedules a timer. The timer callback later
updates that one record, which it finds by `id`.

- **Smart wallet** (`SmartWallet`): a registry of four feature modules, whose switch flips
  one `enabled` flag (`toggleModule`). The gasless button (`executeGaslessTransaction`) is
  gated by the `gasless` module. It prepends a `pending` transaction, and its timer marks
  the transaction `completed`.
- **zkML predictions** (`AIPredictions`): a schema of three models, each with four input
  fields. `generatePrediction` refuses when no model is selected or when a declared field
  is empty. Otherwise it raises `isGenerating`. Its generation timer synthesizes a mock
  outcome with threshold classifiers, prepends an unverified prediction and lowers
  `isGenerating`. A verification timer then sets `verified`.
- **DeFi intents** (`DeFiIntents`): `handleSimulateIntent` needs intent text and an amount.
  Its timer stores a fixed four-step route preview. `handleExecuteIntent` needs that preview.
  It prepends an `executing` intent with the joined route and clears the intent text, the
  amount and the preview; the risk-level choice stays. Its timer completes the intent and attaches the actual gain.

Each page is a class whose fields are the page's state slots. Each handler is a method, and
each timer callback is a separate method that may be called at any later point. The handler
returns whatever the callback's closure captured: the new id, or the model and input copy,
or the intent text. Each `prev => prev.map(...)` updater is a pure function over a generic
update-by-id (`TaskList.Update`). Frame, idempotence, commutation and monotonicity lemmas
are proved about those functions.

Some source behaviour becomes parameters of the model:

- `Date.now().toString()` becomes an `id` parameter, and the clock becomes an `int` parameter `now`.
- `Math.random()` becomes a `real` draw in [0, 1).
- The proof token becomes a `zkProof` string.

The source does not guarantee fresh ids, so no handler requires one. Facts that depend
on distinct ids take distinctness as a hypothesis (`SubmitKeepsDistinct`,
`CompleteExactlyOne`, …). Without it, a timer completes every record sharing the id
(`CompleteOnlyMatching`).

`SmartWallet.Replay` quantifies over interleavings. It replays any sequence of gasless
clicks and settlement timers against a fixed module registry; module toggles between the
events are not part of the replay. `ReplayIds` and `ReplayEvolves` state the resulting list
shape and state that records only move forward.

Files:

- `options.dfy`: `Option`.
- `lists.dfy`: the array operations the pages use (`filter`, `find`, `join`).
- `tasklist.dfy`: update-by-id and the "evolves" relation between two list versions.
- `wallet.dfy`, `predictions.dfy`, `intents.dfy`: one file per page.

## Model

| member | source | states |
|---|---|---|
| `Lists.Filter` | src/pages/AIPredictions.tsx:91 | `Array.filter`: every kept element satisfies the predicate and comes from the input; every input element satisfying it is kept; the result is an order-preserving subsequence of the input |
| `Lists.FilterCounts` | src/pages/AIPredictions.tsx:91 | the filter keeps each satisfying element exactly as many times as it occurs in the input, and no other element |
| `Lists.FilterSingle` | src/pages/AIPredictions.tsx:91 | when exactly one position satisfies the predicate, the filter yields exactly that element |
| `Lists.FindIndex` | src/pages/SmartWallet.tsx:108 | the first position satisfying the predicate, or none when no position does |
| `Lists.Find` | src/pages/SmartWallet.tsx:108 | `Array.find`: a found element occurs in the list and satisfies the predicate; `undefined` only when no element does |
| `Lists.FindFirst` | src/pages/SmartWallet.tsx:108 | a found element is the first one satisfying the predicate |
| `Lists.FindIndexSamePattern` | src/pages/SmartWallet.tsx:108 | the first match depends only on which positions satisfy the predicate |
| `Lists.Join` | src/pages/DeFiIntents.tsx:78 | `Array.join`: the joined text starts with the first piece |
| `Lists.JoinLength` | src/pages/DeFiIntents.tsx:78 | a join of n pieces is the pieces plus n - 1 separators, nothing more |
| `TaskList.Update` | src/pages/SmartWallet.tsx:137-139 | the `prev.map(x => x.id === id ? f(x) : x)` updater: same length, records with that id replaced by `f` of themselves, all others kept in place |
| `TaskList.UpdateAbsent` | src/pages/SmartWallet.tsx:137-139 | updating an id no record carries leaves the list unchanged |
| `TaskList.UpdateKeys` | src/pages/SmartWallet.tsx:137-139 | when `f` keeps ids, the update keeps the id sequence |
| `TaskList.UpdateAt` | src/pages/SmartWallet.tsx:137-139 | with distinct ids, updating the id at position k changes position k alone |
| `TaskList.UpdateIdempotent` | src/pages/SmartWallet.tsx:137-139 | for an idempotent `f`, updating twice equals updating once |
| `TaskList.UpdateInvolution` | src/pages/SmartWallet.tsx:90-94 | for a self-inverse `f`, updating twice restores the list |
| `TaskList.UpdateCommutes` | src/pages/SmartWallet.tsx:137-139 | two updates by id commute |
| `TaskList.UpdatePrepend` | src/pages/SmartWallet.tsx:128 | an update by another id passes over a record prepended in front |
| `TaskList.KeysPrepend` | src/pages/SmartWallet.tsx:128 | prepending a record prepends its id to the id sequence |
| `TaskList.PrependDistinct` | src/pages/SmartWallet.tsx:120 | prepending a fresh id keeps the ids distinct |
| `TaskList.EvolvesTransitive` | src/pages/SmartWallet.tsx:128-139 | "each old record evolved by a step, new ones in front" composes across successive updates |
| `TaskList.PrependEvolves` | src/pages/SmartWallet.tsx:128 | prepending leaves every earlier record as it was |
| `TaskList.UpdateEvolves` | src/pages/SmartWallet.tsx:137-139 | an update by id moves only the matching records, by the given step |
| `SmartWallet.SubmitGasless` | src/pages/SmartWallet.tsx:107-128 | gate open iff one record is added; the earlier records follow unchanged and in order; gate closed: the list is unchanged; the new record has the id, is a `pending` gasless "Test Transaction" of "0.1 ETH" stamped `now` |
| `SmartWallet.ToggleFlipsOnlyMatching` | src/pages/SmartWallet.tsx:90-94 | toggling flips `enabled` on exactly the modules with that id; other fields, other modules, length and order unchanged |
| `SmartWallet.ToggleExactlyOne` | src/pages/SmartWallet.tsx:90-94 | with distinct module ids, toggling the id at position k changes that module alone |
| `SmartWallet.ToggleTwice` | src/pages/SmartWallet.tsx:90-94 | toggling the same id twice restores the module list |
| `SmartWallet.ToggleAbsent` | src/pages/SmartWallet.tsx:90-94 | toggling an id no module has changes nothing |
| `SmartWallet.ToggleKeepsRegistry` | src/pages/SmartWallet.tsx:90-94 | toggling never adds, drops, renames or reorders modules |
| `SmartWallet.InitialRegistry` | src/pages/SmartWallet.tsx:33-66 | the registry starts as gasless, social, automation, session, all disabled, so the gasless gate is closed |
| `SmartWallet.InitialTransactionsSettled` | src/pages/SmartWallet.tsx:68-85 | exactly two seed transactions, both `completed`, none `failed`, with distinct ids |
| `SmartWallet.EnablingGaslessOpensGate` | src/pages/SmartWallet.tsx:89-94 | switching the gasless module on in the initial registry opens the gate and keeps the registry |
| `SmartWallet.InitialRejectsGasless` | src/pages/SmartWallet.tsx:108-117 | a gasless submission against the initial registry leaves the transactions unchanged |
| `SmartWallet.GateIsFirstGaslessModule` | src/pages/SmartWallet.tsx:108 | the gate is open iff the first module with id `gasless` exists and is enabled |
| `SmartWallet.GateIsFirstModule` | src/pages/SmartWallet.tsx:108 | with the registry in its fixed order, the gate is the first module's flag |
| `SmartWallet.ToggleGaslessFlipsGate` | src/pages/SmartWallet.tsx:90-94 | toggling `gasless` reverses the gate whenever a module has that id |
| `SmartWallet.ToggleOtherKeepsGate` | src/pages/SmartWallet.tsx:90-94 | toggling any other module leaves the gate as it was |
| `SmartWallet.CompleteOnlyMatching` | src/pages/SmartWallet.tsx:137-139 | settlement sets `completed` on exactly the records with that id; other fields, other records, length and order unchanged |
| `SmartWallet.CompleteExactlyOne` | src/pages/SmartWallet.tsx:137-139 | with distinct ids, settling the id at position k changes that record alone |
| `SmartWallet.CompleteIdempotent` | src/pages/SmartWallet.tsx:137-139 | settling twice equals settling once |
| `SmartWallet.CompleteAbsent` | src/pages/SmartWallet.tsx:137-139 | settling an absent id changes nothing |
| `SmartWallet.CompleteCommutes` | src/pages/SmartWallet.tsx:136-145 | two settlement timers give the same list in either firing order |
| `SmartWallet.CompleteCommutesWithSubmit` | src/pages/SmartWallet.tsx:128-139 | a settlement timer and a later submission with another id commute |
| `SmartWallet.InitialTransactions` | src/pages/SmartWallet.tsx:68-85 | the two seed transactions, "1" and "2", stamped 30 minutes and 2 hours before mount (facts in `InitialTransactionsSettled`) |
| `SmartWallet.ToggleById` | src/pages/SmartWallet.tsx:90-94 | the `setModules` updater as an update by id with the `enabled` flip (facts in the `Toggle…` lemmas) |
| `SmartWallet.GaslessEnabled` | src/pages/SmartWallet.tsx:108 | the `find(...)?.enabled` gate, `undefined` read as false (facts in `GateIsFirstGaslessModule`) |
| `SmartWallet.NewGaslessTx` | src/pages/SmartWallet.tsx:119-126 | the pending gasless test record (facts in `SubmitGasless`) |
| `SmartWallet.CompleteById` | src/pages/SmartWallet.tsx:137-139 | the settlement updater as an update by id setting `completed` (facts in the `Complete…` lemmas) |
| `SmartWallet.Replay` | src/pages/SmartWallet.tsx:107-146 | the transaction list after a sequence of gasless clicks and settlement timers, for a fixed registry (facts in `ReplayIds`, `ReplayEvolves`) |
| `SmartWallet.SubmitThenComplete` | src/pages/SmartWallet.tsx:119-139 | the settlement of a submitted transaction completes the record at the front, and the rest is the earlier list settled for the same id (an earlier record sharing the id is completed too) |
| `SmartWallet.SubmitKeepsDistinct` | src/pages/SmartWallet.tsx:120-128 | a submission with a fresh id keeps the transaction ids distinct |
| `SmartWallet.TxStepTransitive` | src/pages/SmartWallet.tsx:26 | a record's steps (none, or pending to completed) compose |
| `SmartWallet.CompleteEvolves` | src/pages/SmartWallet.tsx:137-139 | settlement moves records from pending to completed only and never yields `failed` |
| `SmartWallet.SubmitEvolves` | src/pages/SmartWallet.tsx:107-128 | a submission leaves every earlier record as it was and never yields `failed` |
| `SmartWallet.ReplayIds` | src/pages/SmartWallet.tsx:107-146 | for a fixed registry, under any interleaving of gasless clicks and settlement timers, the ids are the accepted submissions newest first (none when that registry's gate is closed) followed by the earlier ids |
| `SmartWallet.ReplayEvolves` | src/pages/SmartWallet.tsx:107-146 | for a fixed registry, under any interleaving of gasless clicks and settlement timers, each earlier record only moves from pending to completed and none becomes `failed` |
| `SmartWallet.WalletPage.constructor` | src/pages/SmartWallet.tsx:33-85 | the initial modules and the two seed transactions |
| `SmartWallet.WalletPage.ToggleModule` | src/pages/SmartWallet.tsx:89-105 | the modules become the toggled list, the transactions are untouched, the registry keeps its shape |
| `SmartWallet.WalletPage.ExecuteGaslessTransaction` | src/pages/SmartWallet.tsx:107-146 | the transactions become `SubmitGasless` of the old state; the settlement id is returned iff the gate was open; modules untouched |
| `SmartWallet.WalletPage.CompleteTransaction` | src/pages/SmartWallet.tsx:136-145 | the settlement timer: the transactions become the settled list, which evolves from the old one |
| `SmartWallet.GaslessWalkthrough` | src/pages/SmartWallet.tsx:89-146 | on a fresh page a gasless click is rejected; after the gasless module is switched on, a click is accepted and its timer leaves the newest record completed and gasless |
| `AIPredictions.SchemaKeys` | src/pages/AIPredictions.tsx:36-67 | the schema holds exactly the three model ids |
| `AIPredictions.MissingFields` | src/pages/AIPredictions.tsx:91 | exactly the declared fields whose value is absent or empty, in schema order; empty iff every declared field is filled |
| `AIPredictions.MissingExactlyOne` | src/pages/AIPredictions.tsx:91 | when one declared field alone is unfilled, the check names exactly that field |
| `AIPredictions.CreditRiskLevel` | src/pages/AIPredictions.tsx:114 | "Low" iff score > 70, "Medium" iff 40 < score ≤ 70, "High" iff score ≤ 40 |
| `AIPredictions.CreditRecommendation` | src/pages/AIPredictions.tsx:115 | "Approve" iff score > 70, otherwise "Review Required" |
| `AIPredictions.DefiRiskCategory` | src/pages/AIPredictions.tsx:134 | "Low Risk" iff r > 0.7, "Medium Risk" iff 0.4 < r ≤ 0.7, "High Risk" iff r ≤ 0.4 |
| `AIPredictions.DefiRecommendation` | src/pages/AIPredictions.tsx:135 | "Safe to interact" iff r > 0.7, otherwise "Exercise caution" |
| `AIPredictions.PriceDirection` | src/pages/AIPredictions.tsx:126 | "Bullish" iff change > 0, otherwise "Bearish" |
| `AIPredictions.Confidence` | src/pages/AIPredictions.tsx:107 | for a draw in [0, 1) the confidence lies in [70, 100) |
| `AIPredictions.Synthesize` | src/pages/AIPredictions.tsx:109-141 | the outcome fits its model: the kind matches the model id, the score is in [0, 100) or the change in [-10, 10), and every label agrees with the thresholds |
| `AIPredictions.CreditRiskLevelsReachable` | src/pages/AIPredictions.tsx:111-114 | each of the three credit-risk levels is produced by some draw |
| `AIPredictions.NewPrediction` | src/pages/AIPredictions.tsx:146-155 | the new record carries the id, the model and a copy of the input; it is unverified and well formed |
| `AIPredictions.VerifyById` | src/pages/AIPredictions.tsx:167-169 | the verification updater as an update by id setting `verified` (facts in the `Verify…` lemmas) |
| `AIPredictions.VerifyOnlyMatching` | src/pages/AIPredictions.tsx:167-169 | verification sets `verified` on exactly the matching records, never clears it; other fields, other records, length and order unchanged |
| `AIPredictions.VerifyExactlyOne` | src/pages/AIPredictions.tsx:167-169 | with distinct ids, verifying the id at position k changes that record alone |
| `AIPredictions.VerifyIdempotent` | src/pages/AIPredictions.tsx:167-169 | verifying twice equals verifying once |
| `AIPredictions.VerifyAbsent` | src/pages/AIPredictions.tsx:167-169 | verifying an absent id changes nothing |
| `AIPredictions.VerifyCommutes` | src/pages/AIPredictions.tsx:166-175 | two verification timers give the same list in either firing order |
| `AIPredictions.VerifyCommutesWithInsert` | src/pages/AIPredictions.tsx:157-169 | a verification timer and a later insertion with another id commute |
| `AIPredictions.InsertKeepsDistinct` | src/pages/AIPredictions.tsx:147-157 | an insertion with a fresh id keeps the prediction ids distinct |
| `AIPredictions.PredictionStepTransitive` | src/pages/AIPredictions.tsx:153-168 | a record's steps (none, or unverified to verified) compose |
| `AIPredictions.VerifyEvolves` | src/pages/AIPredictions.tsx:167-169 | verification only moves unverified records to verified and keeps every record well formed |
| `AIPredictions.PredictionsPage.constructor` | src/pages/AIPredictions.tsx:70-73 | no model, empty input, not generating, no predictions |
| `AIPredictions.PredictionsPage.SelectModel` | src/pages/AIPredictions.tsx:214 | the selection becomes the picked model; nothing else changes |
| `AIPredictions.PredictionsPage.HandleInputChange` | src/pages/AIPredictions.tsx:76-78 | the input map gains or overwrites that one key; nothing else changes |
| `AIPredictions.PredictionsPage.GeneratePrediction` | src/pages/AIPredictions.tsx:80-102 | no model: refused, nothing changes; missing fields: refused with exactly those fields, nothing changes; otherwise `isGenerating` is raised and the captured model and input form a ready job |
| `AIPredictions.PredictionsPage.FinishGeneration` | src/pages/AIPredictions.tsx:105-158 | the new unverified prediction goes in front, the older ones follow unchanged, `isGenerating` is lowered, and the id for the verification timer is returned |
| `AIPredictions.PredictionsPage.VerifyPrediction` | src/pages/AIPredictions.tsx:166-175 | the verification timer: the predictions become the verified list, which evolves from the old one |
| `AIPredictions.CreditRiskMissingEmployment` | src/pages/AIPredictions.tsx:40-45 | a credit-risk form without the employment status is refused naming that field alone |
| `AIPredictions.CreditRiskFormComplete` | src/pages/AIPredictions.tsx:90-93 | once all four credit-risk fields are filled the check passes |
| `AIPredictions.CreditRiskWalkthrough` | src/pages/AIPredictions.tsx:76-175 | on a fresh page the partial credit-risk form is refused naming employment; once filled, a prediction is generated, then verified by its timer, with confidence in [70, 100) |
| `DeFiIntents.MockSimulation` | src/pages/DeFiIntents.tsx:46-58 | the preview keeps the captured intent text, has four route steps and an estimated APY of "8.4%" |
| `DeFiIntents.MockRouteText` | src/pages/DeFiIntents.tsx:78 | the stored route is the four steps in order with " → " between neighbours |
| `DeFiIntents.NewIntent` | src/pages/DeFiIntents.tsx:73-80 | the executing intent built from the text and the preview (facts in `NewIntentShape`) |
| `DeFiIntents.CompleteById` | src/pages/DeFiIntents.tsx:91-95 | the completion updater as an update by id setting `completed` and the actual gain (facts in the `Complete…` lemmas) |
| `DeFiIntents.NewIntentShape` | src/pages/DeFiIntents.tsx:73-80 | a new intent has the id and text, is executing with no actual gain, carries the preview's APY and starts with its first step; from the mock preview it is well formed |
| `DeFiIntents.CompleteOnlyMatching` | src/pages/DeFiIntents.tsx:91-95 | completion sets `completed` and gain "8.2%" on exactly the matching intents; other fields, other intents, length and order unchanged |
| `DeFiIntents.CompleteExactlyOne` | src/pages/DeFiIntents.tsx:91-95 | with distinct ids, completing the id at position k changes that intent alone |
| `DeFiIntents.CompleteIdempotent` | src/pages/DeFiIntents.tsx:91-95 | completing twice equals completing once |
| `DeFiIntents.CompleteAbsent` | src/pages/DeFiIntents.tsx:91-95 | completing an absent id changes nothing |
| `DeFiIntents.CompleteCommutes` | src/pages/DeFiIntents.tsx:90-101 | two completion timers give the same list in either firing order |
| `DeFiIntents.CompleteCommutesWithExecute` | src/pages/DeFiIntents.tsx:82-95 | a completion timer and a later execution with another id commute |
| `DeFiIntents.ExecuteKeepsDistinct` | src/pages/DeFiIntents.tsx:74-82 | an execution with a fresh id keeps the intent ids distinct |
| `DeFiIntents.IntentStepTransitive` | src/pages/DeFiIntents.tsx:16-93 | an intent's steps (none, or executing to completed with the gain) compose |
| `DeFiIntents.CompleteEvolves` | src/pages/DeFiIntents.tsx:91-95 | completion only moves executing intents to completed and keeps every intent well formed (never pending or failed) |
| `DeFiIntents.IntentsPage.constructor` | src/pages/DeFiIntents.tsx:24-29 | empty form, no strategy, not simulating, no preview, no intents |
| `DeFiIntents.IntentsPage.SetIntentText` | src/pages/DeFiIntents.tsx:151 | the intent text becomes the typed or example text |
| `DeFiIntents.IntentsPage.SetAmount` | src/pages/DeFiIntents.tsx:163 | the amount becomes the typed value |
| `DeFiIntents.IntentsPage.SelectStrategy` | src/pages/DeFiIntents.tsx:25 | the strategy becomes the picked one |
| `DeFiIntents.IntentsPage.SimulateIntent` | src/pages/DeFiIntents.tsx:32-45 | empty text or amount: nothing changes and no timer; otherwise `isSimulating` is raised and the timer captures the text |
| `DeFiIntents.IntentsPage.CompleteSimulation` | src/pages/DeFiIntents.tsx:45-61 | the simulation timer stores the mock preview for the captured text and lowers `isSimulating` |
| `DeFiIntents.IntentsPage.ExecuteIntent` | src/pages/DeFiIntents.tsx:70-106 | without a preview nothing changes; otherwise one executing intent goes in front of the unchanged older ones, the intent text, the amount and the preview are cleared (the risk-level choice stays), and the id for the completion timer is returned |
| `DeFiIntents.IntentsPage.CompleteIntent` | src/pages/DeFiIntents.tsx:90-101 | the completion timer: the intents become the completed list, which evolves from the old one |
| `DeFiIntents.IntentWalkthrough` | src/pages/DeFiIntents.tsx:32-106 | on a fresh page an intent is simulated (four steps, "8.4%"), executed as executing with that gain, a second execute does nothing, and the timer completes it with "8.2%" |

## Left out

- Rendering, badges, progress bars and toasts are presentation only. This includes the `toggleModule` toast, which reads the module list as it was before the toggle.
- The `disabled` flags on buttons (`isGenerating`, `isSimulating`, the closed gasless gate) only block clicks in the UI. The handlers are modelled as callable in any state, as the code behind them allows.
- Timer durations (2000, 3000 and 5000 ms) and event-loop scheduling are not modelled. Each callback is a separate method that may run after any other step, and the commutation and `Replay` lemmas cover interleavings.
- `Date.now()`, `new Date()` and `Math.random()` are not modelled. They become parameters: an id string, an `int` time in milliseconds and `real` draws in [0, 1). Two handlers may receive the same id, as `Date.now()` allows.
- `toFixed` formatting of scores and changes is not modelled: scores are kept as exact reals. The zkSNARK hex string construction is also left out: the proof is a string parameter.
- AIPredictions.Confidence: the random draws and the arithmetic on them are exact reals. The bound `< 100` holds over the reals only: in IEEE doubles, `Math.random() * 30 + 70` rounds to exactly 100 for the largest draws, so the page's confidence lies in [70, 100]. The same exact-real reading applies to the scores and the price change in `Synthesize`.
- AIPredictions.Synthesize: it omits `predictedPrice`, because it needs `parseFloat` of the typed price and floating-point multiplication.
- AIPredictions.PredictionsPage.SelectModel: it requires a schema key, because the picker offers only those. An unknown key would make the source's schema lookup fail at run time.
- React's stale-closure semantics are modelled only by what each timer captured. The generation token holds the selected model and the input copy, and the intent completion returns only the id. The intent-completion toast's APY text is presentation.
- SmartWallet transaction status `failed` and intent statuses `pending` and `failed` are declared but never assigned. The invariants state that they never occur.
- `useAccount` (wallet address, connection flag) is not modelled. Neither are the other pages, the dashboard layout and the app's routing and chain configuration: they hold no task state.
