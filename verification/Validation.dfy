/** The strict model a sanitised payload is parsed into, and the re-check that
    every quoted span is literal (analyzer/contract_v3.py). */
module Validation {
  import opened Commercial
  import opened Observations
  import opened Sanitizer

  // ---------- the strict model ----------

  function ParseSpan(ctx: Context, evidence: RawText): (r: Option<string>) {
    if evidence.Text? && !ctx.isBlank(evidence.text) then Some(evidence.text) else None
  }

  function ParseOptional(evidence: RawText): Option<string> {
    match evidence
    case NullText => Some("")
    case Text(s) => Some(s)
    case Alien(_) => None
  }

  function ParseTag<T>(tag: RawTag<T>, default: T): Option<T> {
    match tag
    case Missing => Some(default)
    case Known(t) => Some(t)
    case _ => None
  }

  function ParseQuoted<T>(ctx: Context, e: RawElement<RawItem<T>>): Option<Quoted<T>> {
    if e.NotAnObject? || !e.item.tag.Known? || !e.item.others then None
    else
      match ParseSpan(ctx, e.item.evidence)
      case None => None
      case Some(span) => Some(Quoted(e.item.tag.tag, span))
  }

  function ParseReference(ctx: Context, e: RawElement<RawProduct>): Option<ProductReference> {
    if e.NotAnObject? || !e.item.product.Known? || !e.item.others then None
    else
      match (ParseSpan(ctx, e.item.evidence), ParseTag(e.item.role, Mentioned))
      case (Some(span), Some(role)) => Some(ProductReference(e.item.product.tag, role, span))
      case _ => None
  }

  function ParseAll<E, T>(parse: E -> Option<T>, es: seq<E>): Option<seq<T>> {
    if es == [] then Some([])
    else
      match (parse(es[0]), ParseAll(parse, es[1..]))
      case (Some(x), Some(xs)) => Some([x] + xs)
      case _ => None
  }

  function ParseList<E, T>(parse: RawElement<E> -> Option<T>, list: RawList<E>): Option<seq<T>> {
    match list
    case NoList => Some([])
    case NotAList => None
    case List(es) => ParseAll(parse, es)
  }

  datatype Tagged<T> = Tagged(tag: T, span: string)

  function ParseCount(ctx: Context, s: Section<RawCount>): Option<Option<DeclaredCount>> {
    match s
    case NoSection => Some(None)
    case NotADict => None
    case Dict(c) =>
      if c.value.None? || !(1 <= c.value.value <= 99) || !c.others then None
      else
        match ParseSpan(ctx, c.evidence)
        case None => None
        case Some(span) => Some(Some(DeclaredCount(c.value.value, span)))
  }

  /** Type, strength and span agree: a real objection is quoted and has a
      strength, the absence of one has neither. */
  function ParseObjection(ctx: Context, s: Section<RawObjection>)
    : Option<(ObjectionType, ObjectionStrength, string)>
  {
    match s
    case NoSection => Some((NoObjection, NoStrength, ""))
    case NotADict => None
    case Dict(o) =>
      match (ParseTag(o.kind, NoObjection), ParseTag(o.strength, NoStrength), ParseOptional(o.evidence))
      case (Some(kind), Some(strength), Some(span)) =>
        if o.legacyRelation || !o.others then None
        else if kind == NoObjection then
          if strength == NoStrength && span == "" then Some((kind, strength, span)) else None
        else if strength != NoStrength && !ctx.isBlank(span) then Some((kind, strength, span))
        else None
      case _ => None
  }

  /** `needsSpan` says which tags require a non-blank span. */
  function ParseTagged<T>(ctx: Context, tag: RawTag<T>, default: T, evidence: RawText, others: bool,
                          needsSpan: T -> bool): Option<Tagged<T>> {
    match (ParseTag(tag, default), ParseOptional(evidence))
    case (Some(t), Some(span)) =>
      if others && (needsSpan(t) ==> !ctx.isBlank(span)) then Some(Tagged(t, span)) else None
    case _ => None
  }

  function ParseRelation(ctx: Context, s: Section<RawItem<AnalyzerRelation>>): Option<Tagged<AnalyzerRelation>> {
    match s
    case NoSection => Some(Tagged(NoneObserved, ""))
    case NotADict => None
    case Dict(r) =>
      match ParseTagged(ctx, r.tag, NoneObserved, r.evidence, r.others, t => t != NoneObserved)
      case Some(p) => if p.tag == NoneObserved && p.span != "" then None else Some(p)
      case None => None
  }

  function ParseReadiness(ctx: Context, s: Section<RawItem<BuyingSignal>>): Option<Tagged<BuyingSignal>> {
    match s
    case NoSection => Some(Tagged(NoSignal, ""))
    case NotADict => None
    case Dict(r) => ParseTagged(ctx, r.tag, NoSignal, r.evidence, r.others, t => t == High || t == ExplicitStart)
  }

  function ParsePrior(ctx: Context, s: Section<RawPrior>): Option<Tagged<PriorType>> {
    match s
    case NoSection => Some(Tagged(NoPrior, ""))
    case NotADict => None
    case Dict(r) =>
      if ParseOptional(r.topicHint).None? then None
      else ParseTagged(ctx, r.kind, NoPrior, r.evidence, r.others, t => t != NoPrior)
  }

  function ParsePostPurchase(ctx: Context, s: Section<RawPostPurchase>): Option<Tagged<bool>> {
    match s
    case NoSection => Some(Tagged(false, ""))
    case NotADict => None
    case Dict(r) =>
      match r.detected.Parsed()
      case None => None
      case Some(detected) =>
        ParseTagged(ctx, Known(detected), false, r.evidence, r.others, t => t)
  }

  function ReferenceKey(r: ProductReference): Product { r.product }
  function ReferenceRank(r: ProductReference): int { RoleRank(Known(r.role)) }

  /** The cross-field rules of the observation model: references are deduped, an
      intent that its own fields contradict is replaced, and a turn that changes
      no requirement carries none. */
  function CrossFieldRules(o: Observation): Observation {
    var products := Dedupe(ReferenceKey, ReferenceRank, o.products);
    var compares := |products| > 1
                    && (exists i | 0 <= i < |products| :: products[i].role == QuestionSubject)
                    && (exists i | 0 <= i < |products| :: products[i].role == ComparisonAlternative)
                    && o.intent == ProductScopeQuestion;
    var intent := if compares then ComparisonQuestion else o.intent;
    var settled := if intent == ExplicitStartRequest && o.readiness != ExplicitStart then
                     if o.actions != [] || o.capabilities != [] then ProductScopeQuestion else GeneralInfo
                   else intent;
    var stable := o.(products := products, intent := settled);
    if o.updateIntent == NoChange then stable.(actions := [], capabilities := [], count := None) else stable
  }

  /** The fields of the observation model, each under its own rules. */
  function ModelFields(ctx: Context, p: Payload): Option<Observation> {
    match (ParseList(e => ParseQuoted(ctx, e), p.problems), ParseList(e => ParseQuoted(ctx, e), p.capabilities),
           ParseList(e => ParseQuoted(ctx, e), p.actions), ParseList(e => ParseReference(ctx, e), p.products),
           ParseCount(ctx, p.count))
    case (Some(problems), Some(capabilities), Some(actions), Some(products), Some(count)) =>
      (match (ParseObjection(ctx, p.objection), ParseRelation(ctx, p.relation), ParseReadiness(ctx, p.readiness),
              ParsePrior(ctx, p.prior), ParsePostPurchase(ctx, p.postPurchase), p.rest)
       case (Some(objection), Some(relation), Some(readiness), Some(prior), Some(post), Some(rest)) =>
         if !p.currentVersion then None
         else Some(Observation(
           rest.intent, problems, capabilities, actions, count, rest.updateIntent, products,
           objection.0, objection.1, objection.2, relation.tag, relation.span,
           readiness.tag, readiness.span, prior.tag, prior.span, post.tag, post.span,
           rest.businessType, rest.mainChannel, rest.painOrGoal))
       case _ => None)
    case _ => None
  }

  /** `AnalyzerTurnObservation.model_validate` */
  function ModelValidate(ctx: Context, p: Payload): Option<Observation> {
    match ModelFields(ctx, p)
    case Some(o) => Some(CrossFieldRules(o))
    case None => None
  }

  // ---------- the evidence re-check ----------

  datatype EvidencePath =
    | ProblemPath(i: nat) | CapabilityPath(i: nat) | ActionPath(i: nat) | CountPath | ProductPath(i: nat)
    | ObjectionPath | RelationPath | ReadinessPath | PriorPath | PostPurchasePath

  datatype PathSpan = PathSpan(path: EvidencePath, span: string)

  function When(condition: bool, path: EvidencePath, span: string): seq<PathSpan> {
    if condition then [PathSpan(path, span)] else []
  }

  function QuotedPaths<T>(items: seq<Quoted<T>>, path: nat -> EvidencePath): seq<PathSpan> {
    seq(|items|, i requires 0 <= i < |items| => PathSpan(path(i), items[i].span))
  }

  function ReferencePaths(items: seq<ProductReference>): seq<PathSpan> {
    seq(|items|, i requires 0 <= i < |items| => PathSpan(ProductPath(i), items[i].span))
  }

  function SectionPaths(o: Observation): seq<PathSpan> {
    When(o.objectionType != NoObjection, ObjectionPath, o.objectionSpan) +
    When(o.relation != NoneObserved, RelationPath, o.relationSpan) +
    When(o.readiness == High || o.readiness == ExplicitStart, ReadinessPath, o.readinessSpan) +
    When(o.prior != NoPrior, PriorPath, o.priorSpan) +
    When(o.postPurchase, PostPurchasePath, o.postPurchaseSpan)
  }

  function RequirementPaths(o: Observation): seq<PathSpan> {
    QuotedPaths(o.capabilities, (i: nat) => CapabilityPath(i)) +
    (QuotedPaths(o.actions, (i: nat) => ActionPath(i)) +
     When(o.count.Some?, CountPath, if o.count.Some? then o.count.value.span else ""))
  }

  /** `_evidence_paths`: the ten kinds of quoted span, in order. */
  function EvidencePaths(o: Observation): seq<PathSpan> {
    QuotedPaths(o.problems, (i: nat) => ProblemPath(i)) +
    (RequirementPaths(o) + (ReferencePaths(o.products) + SectionPaths(o)))
  }

  function MissingPaths(ctx: Context, paths: seq<PathSpan>): seq<EvidencePath> {
    if paths == [] then []
    else
      (if paths[0].span != "" && !ctx.Literal(paths[0].span) then [paths[0].path] else [])
      + MissingPaths(ctx, paths[1..])
  }

  datatype Outcome = Accepted(observation: Observation) | RejectedByModel | EvidenceMissing(paths: seq<EvidencePath>)

  /** The strict half of `validate_analyzer_observation`, on any payload. */
  function CheckStrictly(ctx: Context, p: Payload): Outcome {
    match ModelValidate(ctx, p)
    case None => RejectedByModel
    case Some(o) =>
      var missing := MissingPaths(ctx, EvidencePaths(o));
      if missing == [] then Accepted(o) else EvidenceMissing(missing)
  }

  method ValidateAnalyzerObservation(ctx: Context, p: Payload) returns (outcome: Outcome)
    ensures outcome == CheckStrictly(ctx, Sanitize(ctx, p))
    ensures ctx.ProductNamesVisible() ==> !outcome.EvidenceMissing?
    ensures ctx.ProductNamesVisible() && outcome.Accepted? ==> EverySpanLiteral(ctx, outcome.observation)
  {
    var cleaned := SanitizePayload(ctx, p);
    outcome := CheckStrictly(ctx, cleaned.Value());
    if ctx.ProductNamesVisible() && ModelValidate(ctx, Sanitize(ctx, p)).Some? {
      SanitizedSpansAreLiteral(ctx, p);
      LiteralSpansPass(ctx, ModelValidate(ctx, Sanitize(ctx, p)).value);
    }
  }

  // ---------- completeness ----------

  ghost predicate QuotedLiterally<T>(ctx: Context, items: seq<Quoted<T>>) {
    forall i :: 0 <= i < |items| ==> ctx.Literal(items[i].span)
  }

  /** Every span an observation quotes is literally in the message. */
  ghost predicate EverySpanLiteral(ctx: Context, o: Observation) {
    && QuotedLiterally(ctx, o.problems)
    && QuotedLiterally(ctx, o.capabilities)
    && QuotedLiterally(ctx, o.actions)
    && (o.count.Some? ==> ctx.Literal(o.count.value.span))
    && (forall i :: 0 <= i < |o.products| ==> ctx.Literal(o.products[i].span))
    && (o.objectionType != NoObjection ==> ctx.Literal(o.objectionSpan))
    && (o.relation != NoneObserved ==> ctx.Literal(o.relationSpan))
    && (o.readiness == High || o.readiness == ExplicitStart ==> ctx.Literal(o.readinessSpan))
    && (o.prior != NoPrior ==> ctx.Literal(o.priorSpan))
    && (o.postPurchase ==> ctx.Literal(o.postPurchaseSpan))
  }

  lemma {:induction false} MissingConcat(ctx: Context, a: seq<PathSpan>, b: seq<PathSpan>)
    ensures MissingPaths(ctx, a + b) == MissingPaths(ctx, a) + MissingPaths(ctx, b)
  {
    if a == [] {
      assert a + b == b;
    } else {
      assert (a + b)[1..] == a[1..] + b;
      MissingConcat(ctx, a[1..], b);
    }
  }

  lemma {:induction false} LiteralPathsPass(ctx: Context, paths: seq<PathSpan>)
    requires forall i :: 0 <= i < |paths| ==> ctx.Literal(paths[i].span)
    ensures MissingPaths(ctx, paths) == []
  {
    if paths != [] {
      LiteralPathsPass(ctx, paths[1..]);
    }
  }

  lemma RequirementsPass(ctx: Context, o: Observation)
    requires EverySpanLiteral(ctx, o)
    ensures MissingPaths(ctx, RequirementPaths(o)) == []
  {
    var capabilities := QuotedPaths(o.capabilities, (i: nat) => CapabilityPath(i));
    var actions := QuotedPaths(o.actions, (i: nat) => ActionPath(i));
    var count := When(o.count.Some?, CountPath, if o.count.Some? then o.count.value.span else "");
    LiteralPathsPass(ctx, capabilities);
    LiteralPathsPass(ctx, actions);
    LiteralPathsPass(ctx, count);
    MissingConcat(ctx, actions, count);
    MissingConcat(ctx, capabilities, actions + count);
  }

  lemma ProblemsPass(ctx: Context, problems: seq<Quoted<Problem>>, path: nat -> EvidencePath)
    requires QuotedLiterally(ctx, problems)
    ensures MissingPaths(ctx, QuotedPaths(problems, path)) == []
  {
    LiteralPathsPass(ctx, QuotedPaths(problems, path));
  }

  lemma ReferencesPass(ctx: Context, products: seq<ProductReference>)
    requires forall i :: 0 <= i < |products| ==> ctx.Literal(products[i].span)
    ensures MissingPaths(ctx, ReferencePaths(products)) == []
  {
    LiteralPathsPass(ctx, ReferencePaths(products));
  }

  lemma WhenPasses(ctx: Context, condition: bool, path: EvidencePath, span: string, others: seq<PathSpan>)
    requires (condition ==> ctx.Literal(span)) && MissingPaths(ctx, others) == []
    ensures MissingPaths(ctx, others + When(condition, path, span)) == []
  {
    MissingConcat(ctx, others, When(condition, path, span));
  }

  lemma SectionsPass(ctx: Context, o: Observation)
    requires EverySpanLiteral(ctx, o)
    ensures MissingPaths(ctx, SectionPaths(o)) == []
  {
    var one := When(o.objectionType != NoObjection, ObjectionPath, o.objectionSpan);
    var two := one + When(o.relation != NoneObserved, RelationPath, o.relationSpan);
    var three := two + When(o.readiness == High || o.readiness == ExplicitStart, ReadinessPath, o.readinessSpan);
    var four := three + When(o.prior != NoPrior, PriorPath, o.priorSpan);
    assert [] + one == one;
    WhenPasses(ctx, o.objectionType != NoObjection, ObjectionPath, o.objectionSpan, []);
    WhenPasses(ctx, o.relation != NoneObserved, RelationPath, o.relationSpan, one);
    WhenPasses(ctx, o.readiness == High || o.readiness == ExplicitStart, ReadinessPath, o.readinessSpan, two);
    WhenPasses(ctx, o.prior != NoPrior, PriorPath, o.priorSpan, three);
    WhenPasses(ctx, o.postPurchase, PostPurchasePath, o.postPurchaseSpan, four);
  }

  lemma LiteralSpansPass(ctx: Context, o: Observation)
    requires EverySpanLiteral(ctx, o)
    ensures MissingPaths(ctx, EvidencePaths(o)) == []
  {
    var path := (i: nat) => ProblemPath(i);
    ProblemsPass(ctx, o.problems, path);
    RequirementsPass(ctx, o);
    ReferencesPass(ctx, o.products);
    SectionsPass(ctx, o);
    MissingConcat(ctx, ReferencePaths(o.products), SectionPaths(o));
    MissingConcat(ctx, RequirementPaths(o), ReferencePaths(o.products) + SectionPaths(o));
    MissingConcat(ctx, QuotedPaths(o.problems, path),
                  RequirementPaths(o) + (ReferencePaths(o.products) + SectionPaths(o)));
  }

  lemma {:induction false} ParsedAll<E, T>(parse: E -> Option<T>, es: seq<E>, good: T -> bool)
    requires forall i :: 0 <= i < |es| ==> (parse(es[i]).Some? ==> good(parse(es[i]).value))
    ensures ParseAll(parse, es).Some? ==>
              forall i :: 0 <= i < |ParseAll(parse, es).value| ==> good(ParseAll(parse, es).value[i])
  {
    if es != [] {
      ParsedAll(parse, es[1..], good);
    }
  }

  lemma ProblemsLiteral(ctx: Context, list: RawList<RawItem<Problem>>)
    ensures var r := ParseList(e => ParseQuoted(ctx, e),
                               OnList(list, es => Repaired(x => RepairProblem(ctx, x), es)));
            r.Some? ==> QuotedLiterally(ctx, r.value)
  {
    if list.List? {
      var repair := x => RepairProblem(ctx, x);
      RepairedAll(repair, (x: RawItem<Problem>) => ctx.Literal(x.evidence.Render()), list.elements);
      ParsedAll(e => ParseQuoted(ctx, e), Repaired(repair, list.elements), (q: Quoted<Problem>) => ctx.Literal(q.span));
    }
  }

  lemma RequestedLiteral<T(!new)>(ctx: Context, cuesOf: T -> seq<string>, list: RawList<RawItem<T>>)
    ensures var r := ParseList(e => ParseQuoted(ctx, e),
                               OnList(list, es => Repaired(x => RepairNarrowed(ctx, cuesOf, x), es)));
            r.Some? ==> QuotedLiterally(ctx, r.value)
  {
    if list.List? {
      var repair := x => RepairNarrowed(ctx, cuesOf, x);
      forall x: RawItem<T> | repair(x).Some? ensures ctx.Literal(repair(x).value.evidence.Render()) {
        RepairNarrowedStable(ctx, cuesOf, x);
      }
      RepairedAll(repair, (x: RawItem<T>) => ctx.Literal(x.evidence.Render()), list.elements);
      ParsedAll(e => ParseQuoted(ctx, e), Repaired(repair, list.elements), (q: Quoted<T>) => ctx.Literal(q.span));
    }
  }

  lemma ReferencesLiteral(ctx: Context, list: RawList<RawProduct>)
    requires ctx.ProductNamesVisible()
    ensures var r := ParseList(e => ParseReference(ctx, e), OnList(list, es => RepairProducts(ctx, es)));
            r.Some? ==> forall i :: 0 <= i < |r.value| ==> ctx.Literal(r.value[i].span)
  {
    if list.List? {
      RepairProductsStable(ctx, list.elements);
      ParsedAll(e => ParseReference(ctx, e), RepairProducts(ctx, list.elements),
                (q: ProductReference) => ctx.Literal(q.span));
    }
  }

  ghost predicate PartsLiteral(ctx: Context, q: Payload) {
    && (var r := ParseList(e => ParseQuoted(ctx, e), q.problems); r.Some? ==> QuotedLiterally(ctx, r.value))
    && (var r := ParseList(e => ParseQuoted(ctx, e), q.capabilities); r.Some? ==> QuotedLiterally(ctx, r.value))
    && (var r := ParseList(e => ParseQuoted(ctx, e), q.actions); r.Some? ==> QuotedLiterally(ctx, r.value))
    && (var r := ParseList(e => ParseReference(ctx, e), q.products);
        r.Some? ==> forall i :: 0 <= i < |r.value| ==> ctx.Literal(r.value[i].span))
    && FactsLiteral(ctx, q) && SignalsLiteral(ctx, q)
  }

  ghost predicate FactsLiteral(ctx: Context, q: Payload) {
    && (var r := ParseCount(ctx, q.count); r.Some? && r.value.Some? ==> ctx.Literal(r.value.value.span))
    && (var r := ParseObjection(ctx, q.objection); r.Some? && r.value.0 != NoObjection ==> ctx.Literal(r.value.2))
    && (var r := ParseRelation(ctx, q.relation); r.Some? && r.value.tag != NoneObserved ==> ctx.Literal(r.value.span))
  }

  ghost predicate SignalsLiteral(ctx: Context, q: Payload) {
    && (var r := ParseReadiness(ctx, q.readiness);
        r.Some? && (r.value.tag == High || r.value.tag == ExplicitStart) ==> ctx.Literal(r.value.span))
    && (var r := ParsePrior(ctx, q.prior); r.Some? && r.value.tag != NoPrior ==> ctx.Literal(r.value.span))
    && (var r := ParsePostPurchase(ctx, q.postPurchase); r.Some? && r.value.tag ==> ctx.Literal(r.value.span))
  }

  lemma SanitizedFacts(ctx: Context, p: Payload, q: Payload)
    requires q.count == RepairCount(ctx, p.count)
    requires q.objection == OnDict(p.objection, o => RepairObjection(ctx, o))
    requires q.relation == OnDict(p.relation, r => RepairRelation(ctx, r))
    ensures FactsLiteral(ctx, q)
  {
  }

  lemma SanitizedSignals(ctx: Context, p: Payload, q: Payload)
    requires q.readiness == OnDict(p.readiness, r => RepairReadiness(ctx, r))
    requires q.prior == OnDict(p.prior, r => RepairPrior(ctx, r))
    requires q.postPurchase == OnDict(p.postPurchase, r => RepairPostPurchase(ctx, r))
    ensures SignalsLiteral(ctx, q)
  {
  }

  lemma PartsMakeTheWhole(ctx: Context, q: Payload)
    requires PartsLiteral(ctx, q) && ModelFields(ctx, q).Some?
    ensures EverySpanLiteral(ctx, ModelFields(ctx, q).value)
  {
  }

  lemma CrossFieldRulesKeepLiteral(ctx: Context, o: Observation)
    requires EverySpanLiteral(ctx, o)
    ensures EverySpanLiteral(ctx, CrossFieldRules(o))
  {
    DedupeMeaning(ReferenceKey, ReferenceRank, o.products);
    var products := Dedupe(ReferenceKey, ReferenceRank, o.products);
    forall i | 0 <= i < |products| ensures ctx.Literal(products[i].span) {
      assert products[i] in o.products;
    }
  }

  /** Whenever the sanitised payload is accepted by the model, every span it
      quotes is literal, so the re-check never rejects it. */
  lemma SanitizedSpansAreLiteral(ctx: Context, p: Payload)
    requires ctx.ProductNamesVisible()
    requires ModelValidate(ctx, Sanitize(ctx, p)).Some?
    ensures EverySpanLiteral(ctx, ModelValidate(ctx, Sanitize(ctx, p)).value)
  {
    SanitizedParts(ctx, p);
    var q := Sanitize(ctx, p);
    PartsMakeTheWhole(ctx, q);
    CrossFieldRulesKeepLiteral(ctx, ModelFields(ctx, q).value);
  }

  lemma SanitizedParts(ctx: Context, p: Payload)
    requires ctx.ProductNamesVisible()
    ensures PartsLiteral(ctx, Sanitize(ctx, p))
  {
    ProblemsLiteral(ctx, p.problems);
    RequestedLiteral(ctx, ctx.cues.capability, p.capabilities);
    RequestedLiteral(ctx, ctx.cues.action, p.actions);
    ReferencesLiteral(ctx, p.products);
    SanitizedFacts(ctx, p, Sanitize(ctx, p));
    SanitizedSignals(ctx, p, Sanitize(ctx, p));
  }
}
