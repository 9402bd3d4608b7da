/**
 * The multi-step pickup form (js/form.js): the step counter with its guarded `nextStep` and
 * unguarded `prevStep`, the per-step validators, the review summary, the impact calculation
 * that credits points, and the form side of the payment.
 *
 * The form's inputs are read through `FormFields`; `wasteWeight` is `None` while its text is
 * empty. The selected location and the estimate are read from the cost estimator.
 */
module Form {
  import opened Common
  import opened Directory
  import opened Storage
  import Auth
  import Estimator
  import Payment

  /** The values of `wasteType`, `wasteCondition`, `wasteWeight` and `pickupAddress`. */
  datatype FormFields = FormFields(wasteType: string, condition: string, weight: Option<real>, pickupAddress: string)

  /** The outcome of `validateStep1`: passed, or the first failing field. */
  datatype Step1Check = Step1Ok | MissingWasteType | WeightBelowMinimum

  const MinWeight: real := 1.0

  /** `validateStep1`: the type is checked first; then an empty weight or one below 1 kg fails. */
  function ValidateStep1(f: FormFields): (r: Step1Check)
    ensures r == Step1Ok <==> f.wasteType != "" && f.weight.Some? && f.weight.value >= MinWeight
    ensures r == MissingWasteType <==> f.wasteType == ""
  {
    if f.wasteType == "" then MissingWasteType
    else if f.weight.None? || f.weight.value < MinWeight then WeightBelowMinimum
    else Step1Ok
  }

  /** `validateStep2`: a location has been selected. */
  predicate ValidateStep2(selected: Option<Location>)
  {
    selected.Some?
  }

  /**
   * The step `nextStep` lands on from `step` with `count` panels: step 0 is guarded by the
   * first validator, step 1 by the second, later steps by nothing; the last step stays put.
   */
  function StepAfterNext(step: int, count: int, f: FormFields, selected: Option<Location>): (r: int)
    ensures r == step || r == step + 1
    ensures r == step + 1 <==> step < count - 1 && (step == 0 ==> ValidateStep1(f) == Step1Ok)
                                               && (step == 1 ==> ValidateStep2(selected))
    ensures 0 <= step < count ==> 0 <= r < count
  {
    if step == 0 && ValidateStep1(f) != Step1Ok then step
    else if step == 1 && !ValidateStep2(selected) then step
    else if step < count - 1 then step + 1
    else step
  }

  /** The step `prevStep` lands on: one back, except at step 0 (or below). */
  function StepAfterPrev(step: int): (r: int)
    ensures step > 0 ==> r == step - 1
    ensures step <= 0 ==> r == step
  {
    if step > 0 then step - 1 else step
  }

  /** Going forward and then back returns to the same step. */
  lemma PrevUndoesNext(step: int, count: int, f: FormFields, selected: Option<Location>)
    requires 0 <= step
    ensures StepAfterPrev(StepAfterNext(step, count, f, selected)) == step || StepAfterNext(step, count, f, selected) == step
  {
  }

  /**
   * Starting at step 0, two `nextStep`s reach the review step only with a valid first step and
   * a selected location; the review then always has an estimate of at least Rp 6000.
   */
  lemma ReviewNeedsValidInput(count: int, f: FormFields, selected: Option<Location>,
                               user: Option<Estimator.Position>, distance: real)
    requires distance >= 0.0
    requires StepAfterNext(StepAfterNext(0, count, f, selected), count, f, selected) == 2
    ensures ValidateStep1(f) == Step1Ok && ValidateStep2(selected)
    ensures var cost := Estimator.Estimate(selected, user, FieldNumber(f.weight), distance);
      cost.Some? && cost.value >= Estimator.BaseFee + Estimator.PerKgRate
  {
    var w := FieldNumber(f.weight);
    var d := if user.Some? then distance else 0.0;
    var exact := Estimator.BaseFee as real + d * Estimator.PerKmRate as real + w * Estimator.PerKgRate as real;
    assert 6000.0 <= exact;
    Estimator.RoundMonotone(6000.0, exact);
    assert Estimator.Round(6000.0) == 6000;
  }

  /** The CO₂ factor per kilogram: 2.5 for plastic, 5 for electronics, 1 for anything else. */
  function Co2Factor(t: string): (k: real)
    ensures t == "plastik" ==> k == 2.5
    ensures t == "elektronik" ==> k == 5.0
    ensures t != "plastik" && t != "elektronik" ==> k == 1.0
  {
    if t == "elektronik" then 5.0 else if t == "plastik" then 2.5 else 1.0
  }

  /** The `finalPoints` and `impactCO2` figures. */
  datatype Impact = Impact(points: real, co2: real)

  const PointsPerKg: real := 10.0

  /** Points are ten per kilogram; the CO₂ saved is the weight times the type's factor. */
  function ImpactOf(t: string, weight: real): (i: Impact)
    ensures i.points == PointsPerKg * weight
    ensures i.co2 == weight * Co2Factor(t)
    ensures weight >= 0.0 ==> weight <= i.co2 <= i.points / 2.0
  {
    Impact(PointsPerKg * weight, weight * Co2Factor(t))
  }

  const PointsSource: string := "waste_delivery"

  /**
   * The `wastewise_last_contribution` record `calculateImpact` writes; the location falls back
   * to "Unknown" when its text is empty.
   */
  function ContributionRecord(f: FormFields, locationName: string, now: string): (c: Contribution)
    ensures c.wasteType == f.wasteType && c.weight == FieldNumber(f.weight) && c.timestamp == now
    ensures Impact(c.points, c.co2) == ImpactOf(f.wasteType, FieldNumber(f.weight))
    ensures c.location != ""
    ensures locationName != "" ==> c.location == locationName
    ensures locationName == "" ==> c.location == "Unknown"
  {
    var w := FieldNumber(f.weight);
    var i := ImpactOf(f.wasteType, w);
    Contribution(f.wasteType, w, i.points, i.co2, now, if locationName == "" then "Unknown" else locationName)
  }

  /** The stepper's per-item state. */
  datatype Mark = Unmarked | Completed | Active

  /** The stepper after `showStep(index)`: earlier items completed, `index` active. */
  function StepperMarks(n: nat, index: int): (ms: seq<Mark>)
    ensures |ms| == n
    ensures forall i :: 0 <= i < n ==> (ms[i] == Completed <==> i < index) && (ms[i] == Active <==> i == index)
  {
    seq(n, i => if i < index then Completed else if i == index then Active else Unmarked)
  }

  /** Which panels carry `active` after `showStep(index)`: at most the one at `index`. */
  function PanelFlags(n: nat, index: int): (ps: seq<bool>)
    ensures |ps| == n
    ensures forall i :: 0 <= i < n ==> (ps[i] <==> i == index)
  {
    seq(n, i => i == index)
  }

  /**
   * The review texts `updateSummary` fills in. The fields are shown as entered (an empty
   * weight as empty text); a missing location shows "-" and a missing or zero cost "Rp -".
   */
  datatype Summary = Summary(wasteType: string, condition: string, weight: Option<real>,
                             location: Option<string>, address: string, cost: Option<int>)

  /** `updateSummary`: the fields as entered, the selected site's name, and a truthy cost. */
  function SummaryOf(f: FormFields, selected: Option<Location>, cost: Option<int>): (s: Summary)
    ensures s.wasteType == f.wasteType && s.condition == f.condition && s.weight == f.weight
    ensures s.address == f.pickupAddress
    ensures s.location.Some? <==> selected.Some?
    ensures s.location.Some? ==> s.location.value == selected.value.name
    ensures s.cost.Some? <==> cost.Some? && cost.value != 0
    ensures s.cost.Some? ==> s.cost == cost
  {
    Summary(f.wasteType, f.condition, f.weight,
            if selected.Some? then Some(selected.value.name) else None,
            f.pickupAddress,
            if cost.Some? && cost.value != 0 then cost else None)
  }

  /** A `paymentMethod` radio button. */
  datatype Radio = Radio(value: string, checked: bool)

  /** The value of the first checked radio, or `None` when none is checked. */
  function FirstChecked(radios: seq<Radio>): (p: Option<string>)
    ensures p.None? <==> forall i :: 0 <= i < |radios| ==> !radios[i].checked
    ensures p.Some? ==> exists i :: 0 <= i < |radios| && radios[i].checked && radios[i].value == p.value
                                    && forall j :: 0 <= j < i ==> !radios[j].checked
  {
    if |radios| == 0 then None
    else if radios[0].checked then Some(radios[0].value)
    else
      var p := FirstChecked(radios[1..]);
      assert forall i :: 1 <= i < |radios| ==> radios[i] == radios[1..][i - 1];
      p
  }

  /** The `for ... of` loop of `processPayment` that picks the checked method. */
  method CheckedPaymentMethod(radios: seq<Radio>) returns (payment: Option<string>)
    ensures payment == FirstChecked(radios)
  {
    payment := None;
    var i := 0;
    while i < |radios|
      invariant 0 <= i <= |radios|
      invariant forall j :: 0 <= j < i ==> !radios[j].checked
    {
      if radios[i].checked {
        payment := Some(radios[i].value);
        break;
      }
      i := i + 1;
    }
  }

  /** The order summary the form hands to the gateway; a missing estimate counts as 0. */
  function OrderOf(f: FormFields, locationName: string, cost: Option<int>): (o: Payment.Order)
    ensures o.totalCost == if cost.Some? then cost.value else 0
    ensures o.wasteType == f.wasteType && o.weight == f.weight && o.location == locationName
  {
    Payment.Order(f.wasteType, f.weight, locationName, if cost.Some? then cost.value else 0)
  }

  /** How the form side of a payment ends. */
  datatype PaymentFlow =
    | NoMethodChosen     // no radio checked (or an empty value): the gateway is not called
    | AwaitingPayment    // the gateway's promise never settles
    | PaymentDeclined    // the gateway fulfils with false
    | ImpactFailed       // the gateway succeeded but crediting the points threw
    | FormCompleted      // points credited, contribution saved, next step shown

  /** The module variables of js/form.js and the figures it writes into the page. */
  class FormController {
    var currentStep: int
    var panels: seq<bool>
    var stepper: seq<Mark>
    var summary: Option<Summary>
    var impact: Option<Impact>

    /**
     * `initForm`: with the form, its panels and its stepper present, show step 0; otherwise
     * leave everything unmarked.
     */
    constructor (hasForm: bool, panelCount: nat, stepperCount: nat)
      ensures currentStep == 0 && summary == None && impact == None
      ensures hasForm && panelCount > 0 && stepperCount > 0 ==>
        panels == PanelFlags(panelCount, 0) && stepper == StepperMarks(stepperCount, 0)
      ensures !(hasForm && panelCount > 0 && stepperCount > 0) ==>
        panels == seq(panelCount, _ => false) && stepper == seq(stepperCount, _ => Unmarked)
    {
      currentStep := 0;
      panels := seq(panelCount, _ => false);
      stepper := seq(stepperCount, _ => Unmarked);
      summary := None;
      impact := None;
      new;
      if hasForm && panelCount > 0 && stepperCount > 0 {
        ShowStep(0);
      }
    }

    /** `showStep`: activate panel `index`, re-mark the stepper, and record the step. */
    method ShowStep(index: int)
      modifies this
      ensures currentStep == index
      ensures panels == PanelFlags(|old(panels)|, index)
      ensures stepper == StepperMarks(|old(stepper)|, index)
      ensures summary == old(summary) && impact == old(impact)
    {
      var i := 0;
      while i < |panels|
        invariant 0 <= i <= |panels| == |old(panels)|
        invariant forall j :: 0 <= j < i ==> !panels[j]
        invariant stepper == old(stepper) && summary == old(summary) && impact == old(impact)
      {
        panels := panels[i := false];
        i := i + 1;
      }
      i := 0;
      while i < |stepper|
        invariant 0 <= i <= |stepper| == |old(stepper)|
        invariant forall j :: 0 <= j < i ==> stepper[j] == Unmarked
        invariant |panels| == |old(panels)| && forall j :: 0 <= j < |panels| ==> !panels[j]
        invariant summary == old(summary) && impact == old(impact)
      {
        stepper := stepper[i := Unmarked];
        i := i + 1;
      }
      if 0 <= index < |panels| {
        panels := panels[index := true];
      }
      i := 0;
      while i < |stepper|
        invariant 0 <= i <= |stepper| == |old(stepper)|
        invariant forall j :: 0 <= j < i ==> stepper[j] == StepperMarks(|stepper|, index)[j]
        invariant forall j :: i <= j < |stepper| ==> stepper[j] == Unmarked
        invariant panels == PanelFlags(|old(panels)|, index)
        invariant summary == old(summary) && impact == old(impact)
      {
        if i < index {
          stepper := stepper[i := Completed];
        }
        if i == index {
          stepper := stepper[i := Active];
        }
        i := i + 1;
      }
      currentStep := index;
    }

    /**
     * `nextStep`: advance as `StepAfterNext` says; a move onto step 2 also fills the summary
     * from the estimator's selection and estimate. The estimator itself is only read.
     */
    method NextStep(f: FormFields, estimator: Estimator.CostEstimator)
      modifies this
      ensures currentStep == StepAfterNext(old(currentStep), |old(panels)|, f, estimator.selectedLocation)
      ensures currentStep != old(currentStep) ==>
        panels == PanelFlags(|old(panels)|, currentStep) && stepper == StepperMarks(|old(stepper)|, currentStep)
      ensures currentStep == old(currentStep) ==> panels == old(panels) && stepper == old(stepper)
      ensures summary == if currentStep != old(currentStep) && currentStep == 2
                         then Some(SummaryOf(f, estimator.selectedLocation, estimator.estimatedCost))
                         else old(summary)
      ensures impact == old(impact)
    {
      if currentStep == 0 && ValidateStep1(f) != Step1Ok {
        return;
      }
      if currentStep == 1 && !ValidateStep2(estimator.GetSelectedLocation()) {
        return;
      }
      if currentStep < |panels| - 1 {
        ShowStep(currentStep + 1);
        if currentStep == 2 {
          summary := Some(SummaryOf(f, estimator.GetSelectedLocation(), estimator.GetEstimatedCost()));
        }
      }
    }

    /** `prevStep`: one step back unless at step 0; nothing is validated. */
    method PrevStep()
      modifies this
      ensures currentStep == StepAfterPrev(old(currentStep))
      ensures currentStep != old(currentStep) ==>
        panels == PanelFlags(|old(panels)|, currentStep) && stepper == StepperMarks(|old(stepper)|, currentStep)
      ensures currentStep == old(currentStep) ==> panels == old(panels) && stepper == old(stepper)
      ensures summary == old(summary) && impact == old(impact)
    {
      if currentStep > 0 {
        ShowStep(currentStep - 1);
      }
    }

    /** `completeForm`: back to the first step. */
    method CompleteForm()
      modifies this
      ensures currentStep == 0
      ensures panels == PanelFlags(|old(panels)|, 0) && stepper == StepperMarks(|old(stepper)|, 0)
      ensures summary == old(summary) && impact == old(impact)
    {
      ShowStep(0);
    }

    /**
     * `calculateImpact`: show the figures, credit the points once through `addUserPoints`
     * (whose result is ignored) and overwrite the last contribution, logged in or not. When
     * the stored session does not parse, `addUserPoints` throws and nothing is saved;
     * `completed` is false exactly then.
     */
    method CalculateImpact(f: FormFields, locationName: string, store: LocalStorage, now: string)
      returns (completed: bool)
      modifies this, store
      ensures impact == Some(ImpactOf(f.wasteType, FieldNumber(f.weight)))
      ensures currentStep == old(currentStep) && panels == old(panels) && stepper == old(stepper)
      ensures summary == old(summary)
      ensures completed <==> !old(store.user).Unreadable?
      ensures !completed ==> store.user == old(store.user) && store.lastContribution == old(store.lastContribution)
      ensures completed ==> store.lastContribution == Holds(ContributionRecord(f, locationName, now))
      ensures old(store.user).Empty? || old(store.user).HoldsFalsy? ==> store.user == old(store.user)
      ensures old(store.user).Holds? ==>
        store.user == Holds(Auth.Credit(old(store.user).value, impact.value.points, PointsSource, now))
    {
      var weight := FieldNumber(f.weight);
      var figures := ImpactOf(f.wasteType, weight);
      impact := Some(figures);
      var added := Auth.AddUserPoints(store, figures.points, PointsSource, now);
      if added.Throws? {
        return false;
      }
      store.lastContribution := Holds(ContributionRecord(f, locationName, now));
      return true;
    }

    /**
     * The form's `processPayment`: pick the checked method, send the order to the gateway, and
     * when it fulfils with true run `calculateImpact` and then `nextStep`. A throw inside
     * `calculateImpact` skips `nextStep`.
     */
    method ProcessPayment(radios: seq<Radio>, f: FormFields, locationName: string,
                          estimator: Estimator.CostEstimator, gateway: Payment.PaymentGateway, store: LocalStorage,
                          demo: Payment.DemoAction, snap: Payment.SnapEvent, clock: nat, draw: real, now: string)
      returns (flow: PaymentFlow)
      requires 0.0 <= draw < 1.0
      modifies this, gateway, store
      ensures var p := FirstChecked(radios);
        p.None? || p.value == "" ==>
          flow == NoMethodChosen && gateway.State() == old(gateway.State())
          && store.user == old(store.user) && store.lastContribution == old(store.lastContribution)
          && currentStep == old(currentStep) && impact == old(impact)
      ensures var p := FirstChecked(radios);
        p.Some? && p.value != "" ==>
          var (state, end) := Payment.ProcessOutcome(old(gateway.State()), OrderOf(f, locationName, estimator.estimatedCost),
                                                     p.value, demo, snap, clock, draw);
          && gateway.State() == state
          && (end == Payment.Unsettled ==> flow == AwaitingPayment)
          && (end == Payment.Fulfilled(false) ==> flow == PaymentDeclined)
          && (end == Payment.Fulfilled(true) && old(store.user).Unreadable? ==> flow == ImpactFailed)
          && (end == Payment.Fulfilled(true) && !old(store.user).Unreadable? ==> flow == FormCompleted)
      ensures flow != FormCompleted ==>
        currentStep == old(currentStep) && panels == old(panels) && stepper == old(stepper)
        && summary == old(summary) && store.lastContribution == old(store.lastContribution)
      ensures flow != FormCompleted && flow != ImpactFailed ==> store.user == old(store.user) && impact == old(impact)
      ensures flow == ImpactFailed ==>
        impact == Some(ImpactOf(f.wasteType, FieldNumber(f.weight))) && store.user == old(store.user)
      ensures flow == FormCompleted ==>
        && impact == Some(ImpactOf(f.wasteType, FieldNumber(f.weight)))
        && store.lastContribution == Holds(ContributionRecord(f, locationName, now))
        && (old(store.user).Holds? ==> store.user == Holds(Auth.Credit(old(store.user).value, impact.value.points, PointsSource, now)))
        && (!old(store.user).Holds? ==> store.user == old(store.user))
      ensures flow == FormCompleted ==>
        var next := StepAfterNext(old(currentStep), |old(panels)|, f, estimator.selectedLocation);
        && currentStep == next
        && (next != old(currentStep) ==>
              panels == PanelFlags(|old(panels)|, next) && stepper == StepperMarks(|old(stepper)|, next))
        && (next == old(currentStep) ==> panels == old(panels) && stepper == old(stepper))
        && summary == if next != old(currentStep) && next == 2
                      then Some(SummaryOf(f, estimator.selectedLocation, estimator.estimatedCost))
                      else old(summary)
    {
      var payment := CheckedPaymentMethod(radios);
      if payment.None? || payment.value == "" {
        return NoMethodChosen;
      }
      var order := OrderOf(f, locationName, estimator.GetEstimatedCost());
      var end := gateway.ProcessPayment(order, payment.value, demo, snap, clock, draw);
      if end == Payment.Unsettled {
        return AwaitingPayment;
      }
      if end != Payment.Fulfilled(true) {
        return PaymentDeclined;
      }
      var completed := CalculateImpact(f, locationName, store, now);
      if !completed {
        return ImpactFailed;
      }
      NextStep(f, estimator);
      return FormCompleted;
    }
  }
}
