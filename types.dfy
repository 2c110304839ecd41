/** Shared value types of the house configurator: the pricing input and
    result records, the user's wizard selection, the stored project
    snapshot and its progress record. */
module Types {

  /** A value that may be absent (`undefined` or `null` in the original). */
  datatype Option<+T> = None | Some(value: T) {
    function GetOr(default: T): T {
      match this
      case Some(v) => v
      case None => default
    }
  }

  // ---------------------------------------------------------------------------
  // Pricing & calculation
  // ---------------------------------------------------------------------------

  datatype PriceItemType = Fixed | PerM2 | Percent

  /** One cost line. For `PerM2` the unit price is per square metre, for
      `Percent` it is a fraction of the base price, for `Fixed` it is the
      flat amount. `amount` is the cached final contribution. */
  datatype PriceItem = PriceItem(
    id: string,
    title: string,
    itemType: PriceItemType,
    unitPrice: real,
    quantity: Option<real>,
    amount: real,
    category: Option<string>)

  datatype WallMaterial = Wood | Brick | AeratedConcrete
  datatype FoundationType = Slab | Strip | Pile
  datatype FinishLevel = Shell | Basic | Turnkey
  datatype EngineeringOption =
    HeatingRadiators | WarmFloor | Ventilation | WaterSupply | Septic | Electricity
  datatype Extra = Terrace | Fireplace | PanoramicWindows | Garage

  /** The configuration of a house to be priced. `floors` is an integer
      (the schema admits only 1, 2 and 3); an absent `extras` list means
      no extras and an absent promo multiplier means 1.0. */
  datatype CalculationInput = CalculationInput(
    projectName: Option<string>,
    area: real,
    floors: int,
    wallMaterial: WallMaterial,
    foundationType: FoundationType,
    finishLevel: FinishLevel,
    engineeringOptions: seq<EngineeringOption>,
    extras: Option<seq<Extra>>,
    promoMultiplier: Option<real>)

  datatype StageKey = Design | Foundation | Frame | Engineering | Finishing

  datatype StageEstimate = StageEstimate(key: StageKey, title: string, weeks: int)

  datatype CalculationResult = CalculationResult(
    pricingVersion: string,
    baseRatePerM2: int,
    basePrice: int,
    items: seq<PriceItem>,
    totalPrice: int,
    stages: seq<StageEstimate>,
    durationWeeks: int)

  /** The ranges the request schema enforces before the engine runs:
      area in [10, 1000], floors in {1, 2, 3}, promo multiplier (when
      given) in [0.5, 1.5]. */
  predicate ValidInput(input: CalculationInput) {
    && 10.0 <= input.area <= 1000.0
    && 1 <= input.floors <= 3
    && (input.promoMultiplier.Some? ==> 0.5 <= input.promoMultiplier.value <= 1.5)
  }

  // ---------------------------------------------------------------------------
  // Wizard selection and project snapshot
  // ---------------------------------------------------------------------------

  datatype ConstructionFormat = SelfBuild | TurnkeyBuild

  /** The user's choices in the wizard; `None` is `null`. */
  datatype UserSelection = UserSelection(
    plotId: Option<string>,
    constructionFormat: Option<ConstructionFormat>,
    houseProjectId: Option<string>,
    bookingId: Option<string>)

  datatype ProgressKey = SelectionStep | ParametersStep | SummaryStep | ContactsStep

  datatype ProgressStep = ProgressStep(key: ProgressKey, title: string, completed: bool)

  datatype ProgressState = ProgressState(steps: seq<ProgressStep>, percent: int)

  datatype Contact = Contact(name: Option<string>, phone: Option<string>, email: Option<string>)

  /** A stored project: what the user selected, the calculator input and
      result, the derived progress and the contact details. */
  datatype Project = Project(
    id: string,
    createdAt: string,
    updatedAt: string,
    name: Option<string>,
    selection: Option<UserSelection>,
    calculationInput: Option<CalculationInput>,
    calculationResult: Option<CalculationResult>,
    progress: Option<ProgressState>,
    contact: Option<Contact>)

  /** JavaScript truthiness of an optional string: present and non-empty. */
  predicate Truthy(s: Option<string>) {
    s.Some? && s.value != ""
  }
}
