/** The wizard progress record derived from a stored project: four steps
    in a fixed order, each completed or not, and the completed share as a
    whole percentage. */
module Progress {
  import opened Types
  import Pricing
  import PricingFacts

  /** A project or plot has been chosen (either identifier is a non-empty string). */
  predicate SelectionDone(p: Project) {
    p.selection.Some? &&
    (Truthy(p.selection.value.houseProjectId) || Truthy(p.selection.value.plotId))
  }

  /** The calculator parameters are present. The enumerated fields are
      non-empty strings and therefore always truthy, so only a zero area
      or a zero floor count leaves this step open. */
  predicate ParametersDone(p: Project) {
    p.calculationInput.Some? &&
    p.calculationInput.value.area != 0.0 &&
    p.calculationInput.value.floors != 0
  }

  /** A calculation result with a positive total is stored. */
  predicate SummaryDone(p: Project) {
    p.calculationResult.Some? && p.calculationResult.value.totalPrice > 0
  }

  /** An e-mail address or a phone number is known. */
  predicate ContactsDone(p: Project) {
    p.contact.Some? && (Truthy(p.contact.value.email) || Truthy(p.contact.value.phone))
  }

  /** The number of completed steps. */
  function CompletedCount(steps: seq<ProgressStep>): (n: nat)
    ensures n <= |steps|
  {
    if steps == [] then 0
    else (if steps[0].completed then 1 else 0) + CompletedCount(steps[1..])
  }

  function Steps(p: Project): seq<ProgressStep> {
    [ ProgressStep(SelectionStep, "Выбор проекта/участка", SelectionDone(p)),
      ProgressStep(ParametersStep, "Параметры и опции", ParametersDone(p)),
      ProgressStep(SummaryStep, "Итоговый расчёт", SummaryDone(p)),
      ProgressStep(ContactsStep, "Контакты", ContactsDone(p)) ]
  }

  /** The progress of a project: the four steps in their fixed order, the
      completion of each read off the project's fields, and the percentage
      of completed steps, rounded to the nearest integer (which is exact,
      since the share is a multiple of a quarter). */
  function ComputeProgress(p: Project): (r: ProgressState)
    ensures |r.steps| == 4
    ensures r.steps[0].key == SelectionStep && r.steps[1].key == ParametersStep
    ensures r.steps[2].key == SummaryStep && r.steps[3].key == ContactsStep
    ensures r.steps[0].completed <==>
      p.selection.Some? &&
      (Truthy(p.selection.value.houseProjectId) || Truthy(p.selection.value.plotId))
    ensures r.steps[1].completed <==>
      p.calculationInput.Some? &&
      p.calculationInput.value.area != 0.0 && p.calculationInput.value.floors != 0
    ensures r.steps[2].completed <==>
      p.calculationResult.Some? && p.calculationResult.value.totalPrice > 0
    ensures r.steps[3].completed <==>
      p.contact.Some? && (Truthy(p.contact.value.email) || Truthy(p.contact.value.phone))
    ensures r.percent == 25 * CompletedCount(r.steps)
    ensures r.percent in {0, 25, 50, 75, 100}
  {
    var steps := Steps(p);
    var doneCount := CompletedCount(steps);
    var percent := Pricing.Round(doneCount as real / |steps| as real * 100.0);
    assert doneCount as real / 4.0 * 100.0 == (25 * doneCount) as real;
    Pricing.RoundOfInteger(25 * doneCount);
    ProgressState(steps, percent)
  }

  /** Completing one step that was open adds exactly one to the count. */
  lemma {:induction false} CompleteOneStep(steps: seq<ProgressStep>, i: nat)
    requires i < |steps| && !steps[i].completed
    ensures CompletedCount(steps[i := steps[i].(completed := true)]) == CompletedCount(steps) + 1
  {
    var after := steps[i := steps[i].(completed := true)];
    if i > 0 {
      assert after[1..] == steps[1..][i - 1 := steps[i].(completed := true)];
      CompleteOneStep(steps[1..], i - 1);
    } else {
      assert after[1..] == steps[1..];
    }
  }

  /** All steps are complete exactly when the count reaches the length,
      and none is complete exactly when the count is zero. */
  lemma {:induction false} CountExtremes(steps: seq<ProgressStep>)
    ensures CompletedCount(steps) == |steps| <==> forall i :: 0 <= i < |steps| ==> steps[i].completed
    ensures CompletedCount(steps) == 0 <==> forall i :: 0 <= i < |steps| ==> !steps[i].completed
  {
    if steps != [] {
      CountExtremes(steps[1..]);
      assert forall i :: 1 <= i < |steps| ==> steps[i] == steps[1..][i - 1];
    }
  }

  /** When the projects differ only in one step having become complete,
      the percentage grows by exactly 25. */
  lemma OneMoreStepAddsQuarter(p: Project, q: Project, i: nat)
    requires i < 4
    requires !ComputeProgress(p).steps[i].completed
    requires ComputeProgress(q).steps == ComputeProgress(p).steps[i := ComputeProgress(p).steps[i].(completed := true)]
    ensures ComputeProgress(q).percent == ComputeProgress(p).percent + 25
  {
    CompleteOneStep(ComputeProgress(p).steps, i);
  }

  /** Adding an e-mail address to a project without contact details adds
      a quarter to its progress and changes no other step. */
  lemma AddingEmailAddsQuarter(p: Project, email: string)
    requires !ContactsDone(p) && email != ""
    ensures ComputeProgress(p.(contact := Some(Contact(None, None, Some(email))))).percent ==
            ComputeProgress(p).percent + 25
  {
    var q := p.(contact := Some(Contact(None, None, Some(email))));
    assert Steps(q) == Steps(p)[3 := Steps(p)[3].(completed := true)];
    CompleteOneStep(Steps(p), 3);
  }

  /** Progress is 100 exactly when all four conditions hold, and 0 exactly
      when none holds. */
  lemma FullAndEmptyProgress(p: Project)
    ensures ComputeProgress(p).percent == 100 <==>
      SelectionDone(p) && ParametersDone(p) && SummaryDone(p) && ContactsDone(p)
    ensures ComputeProgress(p).percent == 0 <==>
      !SelectionDone(p) && !ParametersDone(p) && !SummaryDone(p) && !ContactsDone(p)
  {
    var steps := ComputeProgress(p).steps;
    CountExtremes(steps);
    assert steps[0].completed == SelectionDone(p) && steps[1].completed == ParametersDone(p);
    assert steps[2].completed == SummaryDone(p) && steps[3].completed == ContactsDone(p);
  }

  /** A project whose stored result is the pricing engine's answer for a
      valid, non-discounted input has its summary step completed. */
  lemma PricedProjectHasSummary(p: Project, input: CalculationInput)
    requires ValidInput(input) && Pricing.Promo(input) >= 1.0
    requires p.calculationResult == Some(Pricing.Price(input))
    ensures ComputeProgress(p).steps[2].completed
  {
    PricingFacts.TotalAtLeastBase(input);
    PricingFacts.BasePriceBounds(input);
  }
}
