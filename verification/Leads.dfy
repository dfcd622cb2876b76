/** A lead as it is stored between turns (db/repository.py, models/schemas.py). */
module Leads {
  import opened Commercial
  import opened Requirements

  /** A stage field as stored: absent, a current stage, one of the two names of
      the first version, or some other text. */
  datatype StoredStage =
    | Blank | Stored(stage: Stage) | LegacyRecommended | LegacyUnknown | Unrecognised(text: string)

  /** Why an objection was paused or resolved. */
  datatype Reason =
    | NoReason | CurrentIntentAnswered | SemanticResolution | SoftConcernHandledInline | FlowCompleted

  datatype Objection = Objection(
    active: bool,
    type_: ObjectionType,
    strength: ObjectionStrength,
    status: ObjectionStatus,
    relation: ObjectionRelation,
    step: FlowStep,
    started: nat,
    lastUpdated: nat,
    stageBefore: Option<Stage>,
    evidence: string,
    resolved: bool,
    paused: bool,
    pausedReason: Reason,
    resolvedReason: Reason)

  const NO_OBJECTION: Objection :=
    Objection(false, NoObjection, NoStrength, NoStatus, NoRelation, NoStep, 0, 0, None, "", false, false,
              NoReason, NoReason)

  /** An objection that blocks the sale: active, unresolved and hard. */
  predicate Blocks(o: Objection) {
    o.active && !o.resolved && o.strength == Hard
  }

  /** The invariant of every objection the engine stores. */
  predicate SoundObjection(o: Objection) {
    && (o.active ==>
          && !o.resolved && o.strength == Hard && o.type_ != NoObjection
          && o.step in {ThankAndAsk, ClarifyValue, TieSolution, ProvideProof}
          && o.started >= 1 && o.stageBefore.Some?)
    && !(o.paused && !o.active)
    && o.status == (if o.resolved then ResolvedStatus else if o.paused then PausedStatus
                    else if o.active then ActiveStatus else NoStatus)
    && o.started <= o.lastUpdated
  }

  /** The products a turn refers to, talks about and is committed to. */
  datatype ProductContext = ProductContext(
    referenced: Option<Product>, active: Option<Product>, selected: Option<Product>, confirmed: Option<Product>)

  const NO_CONTEXT: ProductContext := ProductContext(None, None, None, None)

  /** `profile_data`. An unknown requirement or fit stands for an absent key. */
  datatype Profile = Profile(
    ledger: Ledger,
    actionRequirement: ActionRequirement,
    knownFit: ProductFit,
    context: ProductContext,
    selected: Option<Product>,
    confirmed: Option<Product>,
    existingClient: bool)

  /** Texts are "" when absent. */
  datatype Lead = Lead(
    currentStage: StoredStage,
    previousStage: StoredStage,
    stageBefore: StoredStage,
    mode: ConversationMode,
    objection: Objection,
    lastAction: Option<MacroAction>,
    businessType: string,
    mainChannel: string,
    pain: string,
    profile: Profile)

  const FRESH: Lead :=
    Lead(Stored(New), Blank, Blank, NormalMode, NO_OBJECTION, None, "", "", "",
         Profile(EMPTY, UnknownRequirement, UnknownFit, NO_CONTEXT, None, None, false))

  function OrElse(a: string, b: string): string {
    if a != "" then a else b
  }

  function Either<T>(a: Option<T>, b: Option<T>): Option<T> {
    if a.Some? then a else b
  }

  /** `_valid_product` */
  function Valid(p: Option<Product>): Option<Product> {
    if p == Some(UnknownProduct) then None else p
  }

  predicate Available(p: Option<Product>) {
    p == Some(Captura) || p == Some(Hibrido)
  }

  function FitFor(p: Product): ProductFit {
    match p
    case Captura => CapturaFit
    case Hibrido => HibridoFit
    case _ => UnknownFit
  }

  function ProductOf(fit: ProductFit): Option<Product> {
    match fit
    case CapturaFit => Some(Captura)
    case HibridoFit => Some(Hibrido)
    case _ => None
  }
}
