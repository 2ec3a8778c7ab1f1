/** The smart-wallet page: a registry of four feature modules, a newest-first list of
    transactions, a gasless submission gated by the `gasless` module, and the timer
    callback that settles a submitted transaction. */
module SmartWallet {
  import opened Options
  import opened Lists
  import opened TaskList

  datatype WalletModule = WalletModule(id: string, name: string, description: string,
                                       enabled: bool, benefits: seq<string>)

  datatype TxStatus = Pending | Completed | Failed

  datatype Transaction = Transaction(id: string, txType: string, amount: string,
                                     status: TxStatus, gasless: bool, timestamp: int)

  const GaslessId: string := "gasless"

  /** The module ids of the registry, in display order. */
  const RegistryIds: seq<string> := ["gasless", "social", "automation", "session"]

  const InitialModules: seq<WalletModule> := [
    WalletModule("gasless", "Gasless Transactions", "Execute transactions without paying gas fees", false,
                 ["Zero gas fees", "Improved UX", "Sponsored transactions"]),
    WalletModule("social", "Social Recovery", "Recover your wallet using trusted guardians", false,
                 ["No seed phrase needed", "Guardian-based recovery", "Enhanced security"]),
    WalletModule("automation", "Intent Automation", "Automatically execute intents and strategies", false,
                 ["Auto-execution", "Smart scheduling", "Condition-based triggers"]),
    WalletModule("session", "Session Keys", "Temporary keys for specific applications", false,
                 ["Time-limited access", "App-specific permissions", "Enhanced security"])
  ]

  /** The two settled transactions the page starts with, stamped 30 minutes and 2 hours
      before the page was mounted at time `now` (milliseconds). */
  function InitialTransactions(now: int): seq<Transaction>
  {
    [ Transaction("1", "Vault Deposit", "2.5 ETH", Completed, true, now - 1000 * 60 * 30),
      Transaction("2", "Intent Execution", "1000 USDC", Completed, false, now - 1000 * 60 * 60 * 2) ]
  }

  function ModuleId(m: WalletModule): string { m.id }

  function Flip(m: WalletModule): WalletModule { m.(enabled := !m.enabled) }

  /** The updater `toggleModule` hands to `setModules`. */
  function ToggleById(mods: seq<WalletModule>, moduleId: string): seq<WalletModule>
  {
    Update(mods, ModuleId, moduleId, Flip)
  }

  predicate IsGasless(m: WalletModule) { m.id == GaslessId }

  /** `modules.find(m => m.id === "gasless")?.enabled`, with `undefined` read as false. */
  function GaslessEnabled(mods: seq<WalletModule>): bool
  {
    match Find(IsGasless, mods)
    case Some(m) => m.enabled
    case None => false
  }

  /** The gate is open exactly when the first module with id `gasless` exists and is
      enabled; a later module with that id is never consulted. */
  lemma GateIsFirstGaslessModule(mods: seq<WalletModule>)
    ensures GaslessEnabled(mods) <==>
              exists k :: 0 <= k < |mods| && IsGasless(mods[k]) && mods[k].enabled &&
                          forall j :: 0 <= j < k ==> !IsGasless(mods[j])
  {
  }

  function NewGaslessTx(id: string, now: int): Transaction
  {
    Transaction(id, "Test Transaction", "0.1 ETH", Pending, true, now)
  }

  /** What `executeGaslessTransaction` does to `transactions`: when the first module with
      id `gasless` is enabled, one pending gasless record goes in front of the list;
      otherwise the list (and everything else) is left as it is. */
  function SubmitGasless(mods: seq<WalletModule>, txs: seq<Transaction>, id: string, now: int)
    : (r: seq<Transaction>)
    ensures GaslessEnabled(mods) <==> |r| == |txs| + 1
    ensures |txs| <= |r| && r[|r| - |txs|..] == txs
    ensures !GaslessEnabled(mods) ==> r == txs
    ensures GaslessEnabled(mods) ==>
              r[0].id == id && r[0].status == Pending && r[0].gasless && r[0].timestamp == now &&
              r[0].txType == "Test Transaction" && r[0].amount == "0.1 ETH"
  {
    if GaslessEnabled(mods) then [NewGaslessTx(id, now)] + txs else txs
  }

  function TxId(t: Transaction): string { t.id }

  function MarkCompleted(t: Transaction): Transaction { t.(status := Completed) }

  /** The updater the settlement timer hands to `setTransactions`. */
  function CompleteById(txs: seq<Transaction>, id: string): seq<Transaction>
  {
    Update(txs, TxId, id, MarkCompleted)
  }

  /** The only change a transaction record may undergo: none, or pending to completed. */
  predicate TxStep(a: Transaction, b: Transaction)
  {
    a == b || (a.status == Pending && b == MarkCompleted(a))
  }

  /** No record is in the `failed` state, which the page never assigns. */
  ghost predicate NeverFailed(txs: seq<Transaction>)
  {
    forall i :: 0 <= i < |txs| ==> txs[i].status != Failed
  }

  // ----- the module registry -----

  /** Toggling flips `enabled` on exactly the modules carrying that id and leaves every
      other field, every other module, the length and the order alone. */
  lemma ToggleFlipsOnlyMatching(mods: seq<WalletModule>, moduleId: string)
    ensures var r := ToggleById(mods, moduleId);
      |r| == |mods| &&
      forall i :: 0 <= i < |mods| ==>
        r[i].enabled == (mods[i].enabled != (mods[i].id == moduleId)) &&
        r[i].(enabled := mods[i].enabled) == mods[i]
  {
  }

  /** With distinct module ids, toggling the id of position k changes that module only. */
  lemma ToggleExactlyOne(mods: seq<WalletModule>, k: nat)
    requires k < |mods| && Distinct(Keys(mods, ModuleId))
    ensures ToggleById(mods, mods[k].id) == mods[k := mods[k].(enabled := !mods[k].enabled)]
  {
    UpdateAt(mods, ModuleId, Flip, k);
  }

  /** Toggling the same id twice restores the registry. */
  lemma ToggleTwice(mods: seq<WalletModule>, moduleId: string)
    ensures ToggleById(ToggleById(mods, moduleId), moduleId) == mods
  {
    UpdateInvolution(mods, ModuleId, moduleId, Flip);
  }

  /** Toggling an id no module has changes nothing. */
  lemma ToggleAbsent(mods: seq<WalletModule>, moduleId: string)
    requires moduleId !in Keys(mods, ModuleId)
    ensures ToggleById(mods, moduleId) == mods
  {
    UpdateAbsent(mods, ModuleId, moduleId, Flip);
  }

  /** Toggling never adds, drops, renames or reorders modules. */
  lemma ToggleKeepsRegistry(mods: seq<WalletModule>, moduleId: string)
    ensures Keys(ToggleById(mods, moduleId), ModuleId) == Keys(mods, ModuleId)
  {
    UpdateKeys(mods, ModuleId, moduleId, Flip);
  }

  /** The page starts with the four modules in registry order, all disabled, and the
      gasless gate closed. */
  lemma InitialRegistry()
    ensures Keys(InitialModules, ModuleId) == RegistryIds
    ensures forall i :: 0 <= i < |InitialModules| ==> !InitialModules[i].enabled
    ensures !GaslessEnabled(InitialModules)
  {
    var ks := Keys(InitialModules, ModuleId);
    assert ks[1] == ModuleId(InitialModules[1]);
    assert ModuleId(InitialModules[1]) == "social";
    assert IsGasless(InitialModules[0]);
  }

  /** The two seed transactions are completed and carry distinct ids. */
  lemma InitialTransactionsSettled(now: int)
    ensures |InitialTransactions(now)| == 2
    ensures forall i :: 0 <= i < 2 ==> InitialTransactions(now)[i].status == Completed
    ensures NeverFailed(InitialTransactions(now)) && Distinct(Keys(InitialTransactions(now), TxId))
  {
    var kt := Keys(InitialTransactions(now), TxId);
    assert kt[0] == TxId(InitialTransactions(now)[0]);
    assert TxId(InitialTransactions(now)[0]) == "1";
  }

  /** Switching the gasless module on in the initial registry opens the gate. */
  lemma EnablingGaslessOpensGate()
    ensures Keys(ToggleById(InitialModules, GaslessId), ModuleId) == RegistryIds
    ensures GaslessEnabled(ToggleById(InitialModules, GaslessId))
  {
    InitialRegistry();
    ToggleKeepsRegistry(InitialModules, GaslessId);
    assert Keys(InitialModules, ModuleId)[0] == GaslessId;
    ToggleGaslessFlipsGate(InitialModules);
  }

  /** A gasless transaction submitted in the initial state is rejected. */
  lemma InitialRejectsGasless(txs: seq<Transaction>, id: string, now: int)
    ensures SubmitGasless(InitialModules, txs, id, now) == txs
  {
    InitialRegistry();
  }

  /** With the registry in its fixed shape the gate is the first module's flag. */
  lemma GateIsFirstModule(mods: seq<WalletModule>)
    requires Keys(mods, ModuleId) == RegistryIds
    ensures GaslessEnabled(mods) == mods[0].enabled
  {
    assert mods[0].id == Keys(mods, ModuleId)[0];
    assert IsGasless(mods[0]);
  }

  /** Toggling `gasless` reverses the gate whenever some module carries that id. */
  lemma ToggleGaslessFlipsGate(mods: seq<WalletModule>)
    requires GaslessId in Keys(mods, ModuleId)
    ensures GaslessEnabled(ToggleById(mods, GaslessId)) == !GaslessEnabled(mods)
  {
    var r := ToggleById(mods, GaslessId);
    FindIndexSamePattern(IsGasless, mods, IsGasless, r);
    var j :| 0 <= j < |mods| && Keys(mods, ModuleId)[j] == GaslessId;
    assert IsGasless(mods[j]);
  }

  /** Toggling any other module leaves the gate as it was. */
  lemma ToggleOtherKeepsGate(mods: seq<WalletModule>, moduleId: string)
    requires moduleId != GaslessId
    ensures GaslessEnabled(ToggleById(mods, moduleId)) == GaslessEnabled(mods)
  {
    FindIndexSamePattern(IsGasless, mods, IsGasless, ToggleById(mods, moduleId));
  }

  // ----- the transaction list -----

  /** Settlement sets `completed` on exactly the records with that id; every other field,
      every other record, the length and the order are unchanged. */
  lemma CompleteOnlyMatching(txs: seq<Transaction>, id: string)
    ensures var r := CompleteById(txs, id);
      |r| == |txs| &&
      forall i :: 0 <= i < |txs| ==>
        r[i].status == (if txs[i].id == id then Completed else txs[i].status) &&
        r[i].(status := txs[i].status) == txs[i]
  {
  }

  /** With distinct ids, settling the id of position k changes that record only. */
  lemma CompleteExactlyOne(txs: seq<Transaction>, k: nat)
    requires k < |txs| && Distinct(Keys(txs, TxId))
    ensures CompleteById(txs, txs[k].id) == txs[k := txs[k].(status := Completed)]
  {
    UpdateAt(txs, TxId, MarkCompleted, k);
  }

  /** Settling twice is settling once. */
  lemma CompleteIdempotent(txs: seq<Transaction>, id: string)
    ensures CompleteById(CompleteById(txs, id), id) == CompleteById(txs, id)
  {
    UpdateIdempotent(txs, TxId, id, MarkCompleted);
  }

  /** Settling an id no record has changes nothing. */
  lemma CompleteAbsent(txs: seq<Transaction>, id: string)
    requires id !in Keys(txs, TxId)
    ensures CompleteById(txs, id) == txs
  {
    UpdateAbsent(txs, TxId, id, MarkCompleted);
  }

  /** Two settlement timers give the same list in either firing order. */
  lemma CompleteCommutes(txs: seq<Transaction>, a: string, b: string)
    ensures CompleteById(CompleteById(txs, a), b) == CompleteById(CompleteById(txs, b), a)
  {
    UpdateCommutes(txs, TxId, a, b, MarkCompleted);
  }

  /** A settlement timer and a later submission with another id commute. */
  lemma CompleteCommutesWithSubmit(mods: seq<WalletModule>, txs: seq<Transaction>,
                                   newId: string, now: int, id: string)
    requires newId != id
    ensures CompleteById(SubmitGasless(mods, txs, newId, now), id) ==
            SubmitGasless(mods, CompleteById(txs, id), newId, now)
  {
    if GaslessEnabled(mods) {
      UpdatePrepend(NewGaslessTx(newId, now), txs, TxId, id, MarkCompleted);
    }
  }

  /** The settlement of a submitted transaction completes the record at the front; the
      rest is the earlier list settled for the same id, so an earlier record that shares
      the id is completed too. */
  lemma SubmitThenComplete(mods: seq<WalletModule>, txs: seq<Transaction>, id: string, now: int)
    requires GaslessEnabled(mods)
    ensures var r := CompleteById(SubmitGasless(mods, txs, id, now), id);
      |r| == |txs| + 1 && r[0] == NewGaslessTx(id, now).(status := Completed) &&
      r[1..] == CompleteById(txs, id)
  {
  }

  /** A submission with a fresh id keeps the transaction ids distinct. */
  lemma SubmitKeepsDistinct(mods: seq<WalletModule>, txs: seq<Transaction>, id: string, now: int)
    requires Distinct(Keys(txs, TxId)) && id !in Keys(txs, TxId)
    ensures Distinct(Keys(SubmitGasless(mods, txs, id, now), TxId))
  {
    if GaslessEnabled(mods) {
      KeysPrepend(NewGaslessTx(id, now), txs, TxId);
      PrependDistinct(id, Keys(txs, TxId));
    }
  }

  lemma TxStepTransitive()
    ensures forall a, b, c :: TxStep(a, b) && TxStep(b, c) ==> TxStep(a, c)
  {
  }

  /** A settlement only moves pending records to completed, and never yields `failed`. */
  lemma CompleteEvolves(txs: seq<Transaction>, id: string)
    requires NeverFailed(txs)
    ensures Evolves(txs, CompleteById(txs, id), TxStep) && NeverFailed(CompleteById(txs, id))
  {
    UpdateEvolves(txs, TxId, id, MarkCompleted, TxStep);
  }

  /** A submission leaves every earlier record as it was, and never yields `failed`. */
  lemma SubmitEvolves(mods: seq<WalletModule>, txs: seq<Transaction>, id: string, now: int)
    requires NeverFailed(txs)
    ensures Evolves(txs, SubmitGasless(mods, txs, id, now), TxStep)
    ensures NeverFailed(SubmitGasless(mods, txs, id, now))
  {
    if GaslessEnabled(mods) {
      PrependEvolves(NewGaslessTx(id, now), txs, TxStep);
    } else {
      assert forall i :: 0 <= i < |txs| ==> TxStep(txs[i], txs[i]);
    }
  }

  // ----- any interleaving of clicks and timers -----

  /** A click on the gasless button, or the firing of one settlement timer. */
  datatype WalletEvent = Submit(id: string, now: int) | Settle(id: string)

  /** The transaction list after the events, in order, starting from `txs`. */
  function Replay(mods: seq<WalletModule>, txs: seq<Transaction>, events: seq<WalletEvent>)
    : seq<Transaction>
    decreases |events|
  {
    if events == [] then txs
    else
      var prev := Replay(mods, txs, events[..|events| - 1]);
      match events[|events| - 1]
      case Submit(id, now) => SubmitGasless(mods, prev, id, now)
      case Settle(id) => CompleteById(prev, id)
  }

  /** The ids of the submissions among the events, latest first. */
  function SubmittedNewestFirst(events: seq<WalletEvent>): seq<string>
    decreases |events|
  {
    if events == [] then []
    else
      var rest := SubmittedNewestFirst(events[..|events| - 1]);
      match events[|events| - 1]
      case Submit(id, _) => [id] + rest
      case Settle(_) => rest
  }

  /** However clicks and timers interleave, the list holds one record per accepted
      submission, newest first, in front of the earlier records; with the gate closed
      it holds only the earlier records. */
  lemma {:induction false} ReplayIds(mods: seq<WalletModule>, txs: seq<Transaction>,
                                     events: seq<WalletEvent>)
    ensures Keys(Replay(mods, txs, events), TxId) ==
            (if GaslessEnabled(mods) then SubmittedNewestFirst(events) else []) + Keys(txs, TxId)
    decreases |events|
  {
    if events != [] {
      var init := events[..|events| - 1];
      var prev := Replay(mods, txs, init);
      ReplayIds(mods, txs, init);
      match events[|events| - 1]
      case Submit(id, now) =>
        if GaslessEnabled(mods) {
          KeysPrepend(NewGaslessTx(id, now), prev, TxId);
        }
      case Settle(id) =>
        UpdateKeys(prev, TxId, id, MarkCompleted);
    }
  }

  /** However clicks and timers interleave, every earlier record only ever moves from
      pending to completed, and no record becomes `failed`. */
  lemma {:induction false} ReplayEvolves(mods: seq<WalletModule>, txs: seq<Transaction>,
                                         events: seq<WalletEvent>)
    requires NeverFailed(txs)
    ensures Evolves(txs, Replay(mods, txs, events), TxStep)
    ensures NeverFailed(Replay(mods, txs, events))
    decreases |events|
  {
    if events == [] {
      assert forall i :: 0 <= i < |txs| ==> TxStep(txs[i], txs[i]);
    } else {
      var init := events[..|events| - 1];
      var prev := Replay(mods, txs, init);
      ReplayEvolves(mods, txs, init);
      TxStepTransitive();
      match events[|events| - 1]
      case Submit(id, now) =>
        SubmitEvolves(mods, prev, id, now);
        EvolvesTransitive(txs, prev, SubmitGasless(mods, prev, id, now), TxStep);
      case Settle(id) =>
        CompleteEvolves(prev, id);
        EvolvesTransitive(txs, prev, CompleteById(prev, id), TxStep);
    }
  }

  // ----- the page component -----

  class WalletPage {
    var modules: seq<WalletModule>
    var transactions: seq<Transaction>

    /** The registry keeps its four modules in order; no transaction is `failed`. */
    ghost predicate Valid()
      reads this
    {
      Keys(modules, ModuleId) == RegistryIds && NeverFailed(transactions)
    }

    /** The component's initial state, mounted at time `now`. */
    constructor (now: int)
      ensures Valid()
      ensures modules == InitialModules && transactions == InitialTransactions(now)
    {
      modules := InitialModules;
      transactions := InitialTransactions(now);
      InitialRegistry();
      InitialTransactionsSettled(now);
    }

    /** The switch handler `toggleModule`. */
    method ToggleModule(moduleId: string)
      requires Valid()
      modifies this
      ensures Valid()
      ensures modules == ToggleById(old(modules), moduleId)
      ensures transactions == old(transactions)
    {
      ToggleKeepsRegistry(modules, moduleId);
      modules := ToggleById(modules, moduleId);
    }

    /** The button handler `executeGaslessTransaction`, with `id` standing for
        `Date.now().toString()` and `now` for the clock. On success it returns the id
        its settlement timer will complete. */
    method ExecuteGaslessTransaction(id: string, now: int) returns (settlement: Option<string>)
      requires Valid()
      modifies this
      ensures Valid()
      ensures modules == old(modules)
      ensures transactions == SubmitGasless(old(modules), old(transactions), id, now)
      ensures settlement == if GaslessEnabled(old(modules)) then Some(id) else None
      ensures Evolves(old(transactions), transactions, TxStep)
    {
      SubmitEvolves(modules, transactions, id, now);
      var gaslessEnabled := GaslessEnabled(modules);
      if !gaslessEnabled {
        settlement := None;
        return;
      }
      var newTx := NewGaslessTx(id, now);
      transactions := [newTx] + transactions;
      settlement := Some(id);
    }

    /** The settlement timer set by `executeGaslessTransaction`; it may fire after any
        other handler or timer. */
    method CompleteTransaction(id: string)
      requires Valid()
      modifies this
      ensures Valid()
      ensures modules == old(modules)
      ensures transactions == CompleteById(old(transactions), id)
      ensures Evolves(old(transactions), transactions, TxStep)
    {
      CompleteEvolves(transactions, id);
      transactions := CompleteById(transactions, id);
    }
  }

  /** The walkthrough of a fresh page: a gasless click is rejected, the gasless module is
      switched on, a second click is accepted, and its timer settles it. */
  method GaslessWalkthrough(id: string, now: int)
    returns (rejected: Option<string>, accepted: Option<string>, latest: Transaction)
    ensures rejected == None && accepted == Some(id)
    ensures latest.id == id && latest.gasless && latest.status == Completed
  {
    var page := new WalletPage(now);
    InitialRegistry();
    rejected := page.ExecuteGaslessTransaction(id, now);
    page.ToggleModule(GaslessId);
    EnablingGaslessOpensGate();
    ghost var enabledMods := ToggleById(InitialModules, GaslessId);
    assert page.modules == enabledMods;
    accepted := page.ExecuteGaslessTransaction(id, now + 1);
    page.CompleteTransaction(id);
    SubmitThenComplete(enabledMods, InitialTransactions(now), id, now + 1);
    latest := page.transactions[0];
  }
}
