/** The DeFi intents page: a simulate-then-execute form, the simulation timer that
    stores a route preview, the execute handler that starts an intent and clears the
    intent text, the amount and the preview, and the timer that completes the intent. */
module DeFiIntents {
  import opened Options
  import opened Lists
  import opened TaskList

  datatype IntentStatus = Pending | Executing | Completed | Failed

  datatype Intent = Intent(id: string, description: string, status: IntentStatus,
                           estimatedGain: string, actualGain: Option<string>,
                           route: string, timestamp: int)

  /** The preview the simulation timer stores in `simulationResult`. */
  datatype SimulationResult = SimulationResult(parsedIntent: string, optimalRoute: seq<string>,
                                               estimatedAPY: string, gasCost: string,
                                               slippage: string, timeToExecute: string)

  /** What the simulation timer captured when the button was clicked. */
  datatype SimulationJob = SimulationJob(parsedIntent: string)

  const MockRoute: seq<string> := [
    "Swap ETH → USDC on Uniswap V3",
    "Deposit USDC to Aave",
    "Borrow against collateral",
    "Stake in Lido"
  ]

  const RouteSeparator: string := " → "

  const EstimatedAPY: string := "8.4%"

  const ActualGain: string := "8.2%"

  /** The preview the simulation timer builds for the captured intent text. */
  function MockSimulation(parsedIntent: string): (r: SimulationResult)
    ensures r.parsedIntent == parsedIntent
    ensures |r.optimalRoute| == 4 && r.estimatedAPY == "8.4%"
  {
    SimulationResult(parsedIntent, MockRoute, EstimatedAPY, "0.012 ETH", "0.1%", "~45 seconds")
  }

  /** The record `handleExecuteIntent` builds from the form text and the preview. */
  function NewIntent(id: string, description: string, preview: SimulationResult, now: int): Intent
  {
    Intent(id, description, Executing, preview.estimatedAPY, None,
           Join(preview.optimalRoute, RouteSeparator), now)
  }

  function IntentId(it: Intent): string { it.id }

  function MarkCompleted(it: Intent): Intent
  {
    it.(status := Completed, actualGain := Some(ActualGain))
  }

  /** The updater the completion timer hands to `setIntents`. */
  function CompleteById(intents: seq<Intent>, id: string): seq<Intent>
  {
    Update(intents, IntentId, id, MarkCompleted)
  }

  /** The only change an intent record may undergo: none, or executing to completed with
      the actual gain attached. */
  predicate IntentStep(a: Intent, b: Intent)
  {
    a == b || (a.status == Executing && b == MarkCompleted(a))
  }

  /** What a stored intent looks like: executing without an actual gain, or completed
      with one; never `pending` or `failed`; the preview's gain and joined route. */
  ghost predicate WellFormed(it: Intent)
  {
    ((it.status == Executing && it.actualGain == None) ||
     (it.status == Completed && it.actualGain == Some(ActualGain))) &&
    it.estimatedGain == EstimatedAPY && it.route == Join(MockRoute, RouteSeparator)
  }

  ghost predicate AllWellFormed(intents: seq<Intent>)
  {
    forall i :: 0 <= i < |intents| ==> WellFormed(intents[i])
  }

  /** The route shown for the mock preview: the four steps, in order, with the separator
      between neighbours. */
  lemma MockRouteText()
    ensures Join(MockRoute, RouteSeparator) ==
      MockRoute[0] + RouteSeparator + MockRoute[1] + RouteSeparator +
      MockRoute[2] + RouteSeparator + MockRoute[3]
  {
  }

  /** An intent started from a preview is executing, carries the preview's APY as its
      estimated gain and the joined steps as its route, and has no actual gain yet; from
      the mock preview it is well formed. */
  lemma NewIntentShape(id: string, description: string, preview: SimulationResult, now: int)
    ensures var it := NewIntent(id, description, preview, now);
      it.id == id && it.description == description &&
      it.status == Executing && it.actualGain == None &&
      it.estimatedGain == preview.estimatedAPY &&
      (preview.optimalRoute != [] ==> preview.optimalRoute[0] <= it.route) &&
      (preview == MockSimulation(preview.parsedIntent) ==> WellFormed(it))
  {
  }

  /** Completion sets `completed` and the actual gain on exactly the intents with that id;
      every other field, every other intent, the length and the order are unchanged. */
  lemma CompleteOnlyMatching(intents: seq<Intent>, id: string)
    ensures var r := CompleteById(intents, id);
      |r| == |intents| &&
      forall i :: 0 <= i < |intents| ==>
        (intents[i].id == id ==> r[i].status == Completed && r[i].actualGain == Some(ActualGain)) &&
        (intents[i].id != id ==> r[i] == intents[i]) &&
        r[i].(status := intents[i].status, actualGain := intents[i].actualGain) == intents[i]
  {
  }

  /** With distinct ids, completing the id of position k changes that intent only. */
  lemma CompleteExactlyOne(intents: seq<Intent>, k: nat)
    requires k < |intents| && Distinct(Keys(intents, IntentId))
    ensures CompleteById(intents, intents[k].id) ==
            intents[k := intents[k].(status := Completed, actualGain := Some(ActualGain))]
  {
    UpdateAt(intents, IntentId, MarkCompleted, k);
  }

  lemma CompleteIdempotent(intents: seq<Intent>, id: string)
    ensures CompleteById(CompleteById(intents, id), id) == CompleteById(intents, id)
  {
    UpdateIdempotent(intents, IntentId, id, MarkCompleted);
  }

  lemma CompleteAbsent(intents: seq<Intent>, id: string)
    requires id !in Keys(intents, IntentId)
    ensures CompleteById(intents, id) == intents
  {
    UpdateAbsent(intents, IntentId, id, MarkCompleted);
  }

  /** Two completion timers give the same list in either firing order. */
  lemma CompleteCommutes(intents: seq<Intent>, a: string, b: string)
    ensures CompleteById(CompleteById(intents, a), b) == CompleteById(CompleteById(intents, b), a)
  {
    UpdateCommutes(intents, IntentId, a, b, MarkCompleted);
  }

  /** A completion timer and a later execution with another id commute. */
  lemma CompleteCommutesWithExecute(it: Intent, intents: seq<Intent>, id: string)
    requires it.id != id
    ensures CompleteById([it] + intents, id) == [it] + CompleteById(intents, id)
  {
    UpdatePrepend(it, intents, IntentId, id, MarkCompleted);
  }

  /** An execution with a fresh id keeps the intent ids distinct. */
  lemma ExecuteKeepsDistinct(it: Intent, intents: seq<Intent>)
    requires Distinct(Keys(intents, IntentId)) && it.id !in Keys(intents, IntentId)
    ensures Distinct(Keys([it] + intents, IntentId))
  {
    KeysPrepend(it, intents, IntentId);
    PrependDistinct(it.id, Keys(intents, IntentId));
  }

  lemma IntentStepTransitive()
    ensures forall a, b, c :: IntentStep(a, b) && IntentStep(b, c) ==> IntentStep(a, c)
  {
  }

  /** Completion only moves executing intents to completed and keeps them well formed. */
  lemma CompleteEvolves(intents: seq<Intent>, id: string)
    requires AllWellFormed(intents)
    ensures Evolves(intents, CompleteById(intents, id), IntentStep)
    ensures AllWellFormed(CompleteById(intents, id))
  {
    UpdateEvolves(intents, IntentId, id, MarkCompleted, IntentStep);
  }

  // ----- the page component -----

  class IntentsPage {
    var intentText: string
    var selectedStrategy: string
    var amount: string
    var isSimulating: bool
    var simulationResult: Option<SimulationResult>
    var intents: seq<Intent>

    /** Every stored preview is the mock preview; every intent is well formed. */
    ghost predicate Valid()
      reads this
    {
      (simulationResult.Some? ==>
         simulationResult.value == MockSimulation(simulationResult.value.parsedIntent)) &&
      AllWellFormed(intents)
    }

    constructor ()
      ensures Valid()
      ensures intentText == "" && selectedStrategy == "" && amount == ""
      ensures !isSimulating && simulationResult == None && intents == []
    {
      intentText := "";
      selectedStrategy := "";
      amount := "";
      isSimulating := false;
      simulationResult := None;
      intents := [];
    }

    /** `setIntentText`, from the text area or an example button. */
    method SetIntentText(text: string)
      requires Valid()
      modifies this`intentText
      ensures Valid() && intentText == text
    {
      intentText := text;
    }

    /** `setAmount`, from the amount field. */
    method SetAmount(value: string)
      requires Valid()
      modifies this`amount
      ensures Valid() && amount == value
    {
      amount := value;
    }

    /** `setSelectedStrategy`, from the strategy picker; the handlers never read it. */
    method SelectStrategy(strategy: string)
      requires Valid()
      modifies this`selectedStrategy
      ensures Valid() && selectedStrategy == strategy
    {
      selectedStrategy := strategy;
    }

    /** The button handler `handleSimulateIntent`, up to scheduling its simulation timer,
        whose captured intent text it returns. */
    method SimulateIntent() returns (job: Option<SimulationJob>)
      requires Valid()
      modifies this`isSimulating
      ensures Valid()
      ensures old(intentText) == "" || old(amount) == "" ==>
                job == None && isSimulating == old(isSimulating)
      ensures old(intentText) != "" && old(amount) != "" ==>
                job == Some(SimulationJob(old(intentText))) && isSimulating
    {
      if intentText == "" || amount == "" {
        return None;
      }
      isSimulating := true;
      job := Some(SimulationJob(intentText));
    }

    /** The simulation timer: stores the mock preview and clears `isSimulating`. */
    method CompleteSimulation(job: SimulationJob)
      requires Valid()
      modifies this`simulationResult, this`isSimulating
      ensures Valid()
      ensures simulationResult == Some(MockSimulation(job.parsedIntent)) && !isSimulating
    {
      simulationResult := Some(MockSimulation(job.parsedIntent));
      isSimulating := false;
    }

    /** The button handler `handleExecuteIntent`, with `id` standing for
        `Date.now().toString()`. Without a preview it does nothing; otherwise it puts
        the executing intent in front, clears the intent text, the amount and the
        preview (the risk-level choice stays), and returns the id its completion timer
        will complete. */
    method ExecuteIntent(id: string, now: int) returns (completion: Option<string>)
      requires Valid()
      modifies this`intents, this`intentText, this`amount, this`simulationResult
      ensures Valid()
      ensures old(simulationResult).None? ==>
                completion == None && intents == old(intents) && intentText == old(intentText) &&
                amount == old(amount) && simulationResult == None
      ensures old(simulationResult).Some? ==>
                completion == Some(id) &&
                intents == [NewIntent(id, old(intentText), old(simulationResult).value, now)] + old(intents) &&
                intentText == "" && amount == "" && simulationResult == None
      ensures Evolves(old(intents), intents, IntentStep)
    {
      assert forall i :: 0 <= i < |intents| ==> IntentStep(intents[i], intents[i]);
      if simulationResult.None? {
        return None;
      }
      var newIntent := NewIntent(id, intentText, simulationResult.value, now);
      NewIntentShape(id, intentText, simulationResult.value, now);
      PrependEvolves(newIntent, intents, IntentStep);
      intents := [newIntent] + intents;
      completion := Some(id);
      intentText := "";
      amount := "";
      simulationResult := None;
    }

    /** The completion timer set by `handleExecuteIntent`. */
    method CompleteIntent(id: string)
      requires Valid()
      modifies this`intents
      ensures Valid()
      ensures intents == CompleteById(old(intents), id)
      ensures Evolves(old(intents), intents, IntentStep)
    {
      CompleteEvolves(intents, id);
      intents := CompleteById(intents, id);
    }
  }

  /** The walkthrough of a fresh page: intent "test" for "1.0" is simulated, executed
      (after which a second click does nothing) and completed by its timer. */
  method IntentWalkthrough(id: string, otherId: string, now: int)
    returns (preview: SimulationResult, started: Intent, again: Option<string>, finished: Intent)
    ensures |preview.optimalRoute| == 4 && preview.estimatedAPY == "8.4%"
    ensures started.id == id && started.status == Executing && started.actualGain == None
    ensures started.estimatedGain == preview.estimatedAPY && started.description == "test"
    ensures again == None
    ensures finished.id == id && finished.status == Completed && finished.actualGain == Some("8.2%")
  {
    var page := new IntentsPage();
    page.SetIntentText("test");
    page.SetAmount("1.0");
    var job := page.SimulateIntent();
    page.CompleteSimulation(job.value);
    preview := page.simulationResult.value;
    var completion := page.ExecuteIntent(id, now);
    started := page.intents[0];
    again := page.ExecuteIntent(otherId, now + 1);
    page.CompleteIntent(completion.value);
    finished := page.intents[0];
  }
}
