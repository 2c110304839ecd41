/** The home page's step-by-step wizard: landing, plot, construction
    format, house, booking and dashboard, with forward moves guarded by
    the shared selection. */
module Wizard {
  import opened Types
  import SelectionContext

  datatype Step = Landing | Plot | Construction | House | Booking | Dashboard

  /** The position of a step in the wizard, from 0 (landing) to 5 (dashboard). */
  function Index(step: Step): (i: nat)
    ensures i <= 5
    ensures i == 0 <==> step == Landing
    ensures i == 5 <==> step == Dashboard
  {
    match step
    case Landing => 0
    case Plot => 1
    case Construction => 2
    case House => 3
    case Booking => 4
    case Dashboard => 5
  }

  /** Whether the wizard may move on: the plot, construction and house
      steps need a plot, a construction format and a house project
      respectively; every other step may always proceed. */
  function CanProceed(step: Step, sel: UserSelection): (ok: bool)
    ensures step == Plot ==> (ok <==> Truthy(sel.plotId))
    ensures step == Construction ==> (ok <==> sel.constructionFormat.Some?)
    ensures step == House ==> (ok <==> Truthy(sel.houseProjectId))
    ensures step !in {Plot, Construction, House} ==> ok
  {
    match step
    case Plot => Truthy(sel.plotId)
    case Construction => sel.constructionFormat.Some?
    case House => Truthy(sel.houseProjectId)
    case _ => true
  }

  /** The step after `step`: the following step when the selection lets
      the wizard proceed, otherwise the same step; the dashboard is last. */
  function Next(step: Step, sel: UserSelection): (r: Step)
    ensures r == step || Index(r) == Index(step) + 1
    ensures r != step <==> step != Dashboard && CanProceed(step, sel)
  {
    match step
    case Landing => Plot
    case Plot => if Truthy(sel.plotId) then Construction else Plot
    case Construction => if sel.constructionFormat.Some? then House else Construction
    case House => if Truthy(sel.houseProjectId) then Booking else House
    case Booking => Dashboard
    case Dashboard => Dashboard
  }

  /** The step before `step`; the landing step has none and stays. */
  function Back(step: Step): (r: Step)
    ensures step == Landing ==> r == Landing
    ensures step != Landing ==> Index(r) + 1 == Index(step)
  {
    match step
    case Landing => Landing
    case Plot => Landing
    case Construction => Plot
    case House => Construction
    case Booking => House
    case Dashboard => Booking
  }

  /** Going back after a forward move returns to where the wizard was. */
  lemma BackAfterNext(step: Step, sel: UserSelection)
    requires Next(step, sel) != step
    ensures Back(Next(step, sel)) == step
  {
    assert Index(Back(Next(step, sel))) == Index(step);
    IndexInjective(Back(Next(step, sel)), step);
  }

  /** Moving forward after going back returns to where the wizard was,
      provided the earlier step lets it proceed. */
  lemma NextAfterBack(step: Step, sel: UserSelection)
    requires step != Landing && CanProceed(Back(step), sel)
    ensures Next(Back(step), sel) == step
  {
    assert Index(Next(Back(step), sel)) == Index(step);
    IndexInjective(Next(Back(step), sel), step);
  }

  lemma IndexInjective(a: Step, b: Step)
    requires Index(a) == Index(b)
    ensures a == b
  {
  }

  /** The step reached by pressing "next" `n` times with a fixed selection. */
  function Walk(step: Step, sel: UserSelection, n: nat): Step
    decreases n
  {
    if n == 0 then step else Walk(Next(step, sel), sel, n - 1)
  }

  /** Each press advances at most one step. */
  lemma {:induction false} WalkAdvancesAtMost(step: Step, sel: UserSelection, n: nat)
    ensures Index(step) <= Index(Walk(step, sel, n)) <= Index(step) + n
    decreases n
  {
    if n > 0 {
      WalkAdvancesAtMost(Next(step, sel), sel, n - 1);
    }
  }

  /** Without a plot the wizard never gets past the plot step. */
  lemma {:induction false} NoPlotNoProgress(step: Step, sel: UserSelection, n: nat)
    requires !Truthy(sel.plotId) && Index(step) <= 1
    ensures Index(Walk(step, sel, n)) <= 1
    decreases n
  {
    if n > 0 {
      NoPlotNoProgress(Next(step, sel), sel, n - 1);
    }
  }

  /** With a plot, a construction format and a house project chosen, five
      presses lead from the landing step to the dashboard. */
  lemma CompleteSelectionReachesDashboard(sel: UserSelection)
    requires Truthy(sel.plotId) && sel.constructionFormat.Some? && Truthy(sel.houseProjectId)
    ensures Walk(Landing, sel, 5) == Dashboard
  {
    assert Walk(Booking, sel, 1) == Walk(Dashboard, sel, 0);
    assert Walk(House, sel, 2) == Walk(Booking, sel, 1);
    assert Walk(Construction, sel, 3) == Walk(House, sel, 2);
    assert Walk(Plot, sel, 4) == Walk(Construction, sel, 3);
  }

  /** The home page: the current wizard step and the provider of the
      shared selection it reads and resets. */
  class Home {
    var currentStep: Step
    const provider: SelectionContext.SelectionProvider

    constructor(provider: SelectionContext.SelectionProvider)
      ensures currentStep == Landing && this.provider == provider
    {
      currentStep := Landing;
      this.provider := provider;
    }

    /** Moves to the next step when the selection allows it. */
    method HandleNext()
      modifies this
      ensures currentStep == Next(old(currentStep), provider.selection)
    {
      match currentStep
      case Landing =>
        currentStep := Plot;
      case Plot =>
        if Truthy(provider.selection.plotId) {
          currentStep := Construction;
        }
      case Construction =>
        if provider.selection.constructionFormat.Some? {
          currentStep := House;
        }
      case House =>
        if Truthy(provider.selection.houseProjectId) {
          currentStep := Booking;
        }
      case Booking =>
        currentStep := Dashboard;
      case Dashboard =>
    }

    /** Moves to the previous step. */
    method HandleBack()
      modifies this
      ensures currentStep == Back(old(currentStep))
    {
      match currentStep
      case Landing =>
      case Plot =>
        currentStep := Landing;
      case Construction =>
        currentStep := Plot;
      case House =>
        currentStep := Construction;
      case Booking =>
        currentStep := House;
      case Dashboard =>
        currentStep := Booking;
    }

    /** Clears the selection and returns to the landing step. */
    method HandleReset()
      modifies this, provider
      ensures currentStep == Landing
      ensures provider.selection == SelectionContext.InitialSelection
    {
      provider.ResetSelection();
      currentStep := Landing;
    }

    /** Whether the "next" button is enabled. */
    method CanProceedNow() returns (ok: bool)
      ensures ok == CanProceed(currentStep, provider.selection)
      ensures ok && currentStep != Dashboard ==> Next(currentStep, provider.selection) != currentStep
    {
      match currentStep
      case Plot =>
        ok := Truthy(provider.selection.plotId);
      case Construction =>
        ok := provider.selection.constructionFormat.Some?;
      case House =>
        ok := Truthy(provider.selection.houseProjectId);
      case _ =>
        ok := true;
    }
  }
}
