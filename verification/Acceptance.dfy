/** The repair pass does no harm: a payload the strict model would accept as it
    stands is still accepted after sanitising, and passes the evidence re-check. */
module Acceptance {
  import opened Commercial
  import opened Observations
  import opened Sanitizer
  import opened Validation

  /** What is only white space has an empty normal form. */
  ghost predicate BlanksVanish(ctx: Context) {
    forall s :: ctx.isBlank(s) ==> ctx.norm(s) == ""
  }

  lemma {:induction false} ParseAllSome<E, T>(parse: E -> Option<T>, es: seq<E>)
    ensures ParseAll(parse, es).Some? <==> forall i :: 0 <= i < |es| ==> parse(es[i]).Some?
  {
    if es != [] {
      ParseAllSome(parse, es[1..]);
      assert forall i :: 1 <= i < |es| ==> es[i] == es[1..][i - 1];
    }
  }

  lemma {:induction false} RepairedStillParse<T(!new), R>(repair: T -> Option<T>, parse: RawElement<T> -> Option<R>,
                                                         es: seq<RawElement<T>>)
    requires forall x :: repair(x).Some? && parse(Object(x)).Some? ==> parse(Object(repair(x).value)).Some?
    requires forall i :: 0 <= i < |es| ==> parse(es[i]).Some?
    ensures forall i :: 0 <= i < |Repaired(repair, es)| ==> parse(Repaired(repair, es)[i]).Some?
  {
    if es != [] {
      var n := |es| - 1;
      RepairedStillParse(repair, parse, es[..n]);
      assert parse(es[n]).Some?;
    }
  }

  lemma ListStillParses<T(!new), R>(repair: T -> Option<T>, parse: RawElement<T> -> Option<R>, list: RawList<T>)
    requires forall x :: repair(x).Some? && parse(Object(x)).Some? ==> parse(Object(repair(x).value)).Some?
    requires ParseList(parse, list).Some?
    ensures ParseList(parse, OnList(list, es => Repaired(repair, es))).Some?
  {
    if list.List? {
      ParseAllSome(parse, list.elements);
      RepairedStillParse(repair, parse, list.elements);
      ParseAllSome(parse, Repaired(repair, list.elements));
    }
  }

  lemma ProblemsStillParse(ctx: Context, list: RawList<RawItem<Problem>>)
    requires BlanksVanish(ctx) && ParseList(e => ParseQuoted(ctx, e), list).Some?
    ensures ParseList(e => ParseQuoted(ctx, e), OnList(list, es => Repaired(x => RepairProblem(ctx, x), es))).Some?
  {
    ListStillParses(x => RepairProblem(ctx, x), e => ParseQuoted(ctx, e), list);
  }

  lemma RequestedStillParse<T(!new)>(ctx: Context, cuesOf: T -> seq<string>, list: RawList<RawItem<T>>)
    requires BlanksVanish(ctx) && ParseList(e => ParseQuoted(ctx, e), list).Some?
    ensures ParseList(e => ParseQuoted(ctx, e),
                      OnList(list, es => Repaired(x => RepairNarrowed(ctx, cuesOf, x), es))).Some?
  {
    ListStillParses((x: RawItem<T>) => RepairNarrowed(ctx, cuesOf, x), e => ParseQuoted(ctx, e), list);
  }

  lemma ProductStillParses(ctx: Context, x: RawProduct)
    requires BlanksVanish(ctx) && ctx.ProductNamesVisible()
    requires RepairProduct(ctx, x).Some? && ParseReference(ctx, Object(x)).Some?
    ensures ParseReference(ctx, Object(RepairProduct(ctx, x).value)).Some?
  {
  }

  lemma ObjectsStillParse<T, R>(parse: RawElement<T> -> Option<R>, from: seq<RawElement<T>>, items: seq<T>)
    requires forall i :: 0 <= i < |from| ==> parse(from[i]).Some?
    requires forall x :: x in items ==> Object(x) in from
    ensures forall i :: 0 <= i < |Objects(items)| ==> parse(Objects(items)[i]).Some?
  {
    forall i | 0 <= i < |Objects(items)| ensures parse(Objects(items)[i]).Some? {
      assert items[i] in items;
      var k :| 0 <= k < |from| && from[k] == Object(items[i]);
    }
  }

  lemma {:induction false} ItemsAreObjects<T>(elements: seq<RawElement<T>>)
    ensures forall x :: x in Items(elements) ==> Object(x) in elements
  {
    if elements != [] {
      ItemsAreObjects(elements[..|elements| - 1]);
    }
  }

  lemma ProductsStillParse(ctx: Context, list: RawList<RawProduct>)
    requires BlanksVanish(ctx) && ctx.ProductNamesVisible() && ParseList(e => ParseReference(ctx, e), list).Some?
    ensures ParseList(e => ParseReference(ctx, e), OnList(list, es => RepairProducts(ctx, es))).Some?
  {
    if list.List? {
      var repair, parse := x => RepairProduct(ctx, x), e => ParseReference(ctx, e);
      var repaired := Repaired(repair, list.elements);
      forall x | repair(x).Some? && parse(Object(x)).Some? ensures parse(Object(repair(x).value)).Some? {
        ProductStillParses(ctx, x);
      }
      ParseAllSome(parse, list.elements);
      RepairedStillParse(repair, parse, list.elements);
      ItemsAreObjects(repaired);
      DedupeMeaning(ProductKey, ProductRank, Items(repaired));
      ObjectsStillParse(parse, repaired, Dedupe(ProductKey, ProductRank, Items(repaired)));
      ParseAllSome(parse, RepairProducts(ctx, list.elements));
    }
  }

  lemma SectionsStillParse(ctx: Context, p: Payload)
    requires BlanksVanish(ctx)
    ensures ParseCount(ctx, p.count).Some? ==> ParseCount(ctx, RepairCount(ctx, p.count)).Some?
    ensures ParseObjection(ctx, p.objection).Some? ==>
              ParseObjection(ctx, OnDict(p.objection, o => RepairObjection(ctx, o))).Some?
    ensures ParseRelation(ctx, p.relation).Some? ==>
              ParseRelation(ctx, OnDict(p.relation, r => RepairRelation(ctx, r))).Some?
  {
  }

  lemma SignalsStillParse(ctx: Context, p: Payload)
    requires BlanksVanish(ctx)
    ensures ParseReadiness(ctx, p.readiness).Some? ==>
              ParseReadiness(ctx, OnDict(p.readiness, r => RepairReadiness(ctx, r))).Some?
    ensures ParsePostPurchase(ctx, p.postPurchase).Some? ==>
              ParsePostPurchase(ctx, OnDict(p.postPurchase, r => RepairPostPurchase(ctx, r))).Some?
  {
  }

  lemma PriorStillParses(ctx: Context, p: Payload)
    requires BlanksVanish(ctx)
    ensures ParsePrior(ctx, p.prior).Some? ==>
              ParsePrior(ctx, OnDict(p.prior, r => RepairPrior(ctx, r))).Some?
  {
  }

  /** A payload the model accepts is still accepted once sanitised. */
  lemma SanitizingKeepsAcceptance(ctx: Context, p: Payload)
    requires BlanksVanish(ctx) && ctx.ProductNamesVisible() && ModelValidate(ctx, p).Some?
    ensures ModelValidate(ctx, Sanitize(ctx, p)).Some?
  {
    ProblemsStillParse(ctx, p.problems);
    RequestedStillParse(ctx, ctx.cues.capability, p.capabilities);
    RequestedStillParse(ctx, ctx.cues.action, p.actions);
    ProductsStillParse(ctx, p.products);
    SectionsStillParse(ctx, p);
    SignalsStillParse(ctx, p);
    PriorStillParses(ctx, p);
  }

  /** So sanitising and checking never reject what the model alone accepts. */
  lemma ValidPayloadsAreAccepted(ctx: Context, p: Payload)
    requires BlanksVanish(ctx) && ctx.ProductNamesVisible() && ModelValidate(ctx, p).Some?
    ensures CheckStrictly(ctx, Sanitize(ctx, p)).Accepted?
  {
    SanitizingKeepsAcceptance(ctx, p);
    SanitizedSpansAreLiteral(ctx, p);
    LiteralSpansPass(ctx, ModelValidate(ctx, Sanitize(ctx, p)).value);
  }

  // ---------- nothing supported is dropped ----------

  /** The message supports an observation when it contains the quoted span, or
      failing that one of the phrases that name it. */
  ghost predicate Supported(ctx: Context, evidence: RawText, cues: seq<string>) {
    ctx.Literal(evidence.Render()) || exists i :: 0 <= i < |cues| && ctx.Literal(cues[i])
  }

  lemma {:induction false} SomeMatch(ctx: Context, cues: seq<string>)
    ensures FirstMatch(ctx.norm, ctx.message, cues).Some? <==> exists i :: 0 <= i < |cues| && ctx.Literal(cues[i])
  {
    var found := FirstMatch(ctx.norm, ctx.message, cues);
    if found.Some? {
      var i :| 0 <= i < |cues| && cues[i] == found.value;
      assert ctx.Literal(cues[i]);
    }
  }

  lemma EvidenceIffSupported(ctx: Context, evidence: RawText, cues: seq<string>)
    ensures WithEvidence(ctx, evidence, cues).Some? <==> Supported(ctx, evidence, cues)
  {
    SomeMatch(ctx, cues);
  }

  /** A problem, an objection, a purchase signal, a prior reference or a declared
      count is kept exactly when the message supports it; a span that is literal
      already is never touched. */
  lemma ProblemsKept(ctx: Context, x: RawItem<Problem>)
    requires x.tag.Known?
    ensures RepairProblem(ctx, x).Some? <==> Supported(ctx, x.evidence, ctx.cues.problem(x.tag.tag))
    ensures ctx.Literal(x.evidence.Render()) ==> RepairProblem(ctx, x) == Some(x)
  {
    SomeMatch(ctx, ctx.cues.problem(x.tag.tag));
  }

  lemma ObjectionKept(ctx: Context, o: RawObjection)
    requires o.kind.Known? && o.kind.tag != NoObjection && o.strength.Known? && o.strength.tag != NoStrength
    ensures RepairObjection(ctx, o).kind == o.kind <==> Supported(ctx, o.evidence, ctx.cues.objection(o.kind.tag))
    ensures ctx.Literal(o.evidence.Render()) ==> RepairObjection(ctx, o) == o
  {
    EvidenceIffSupported(ctx, o.evidence, ctx.cues.objection(o.kind.tag));
  }

  lemma RelationKept(ctx: Context, r: RawItem<AnalyzerRelation>)
    requires r.tag.Known? && r.tag.tag != NoneObserved
    ensures RepairRelation(ctx, r).tag == r.tag <==> ctx.Literal(r.evidence.Render())
    ensures ctx.Literal(r.evidence.Render()) ==> RepairRelation(ctx, r) == r
  {
  }

  lemma ReadinessKept(ctx: Context, r: RawItem<BuyingSignal>)
    requires r.tag == Known(High) || r.tag == Known(ExplicitStart)
    ensures RepairReadiness(ctx, r).tag == r.tag <==> Supported(ctx, r.evidence, ctx.cues.readiness(r.tag.tag))
    ensures ctx.Literal(r.evidence.Render()) ==> RepairReadiness(ctx, r) == r
  {
    EvidenceIffSupported(ctx, r.evidence, ctx.cues.readiness(r.tag.tag));
  }

  lemma PriorKept(ctx: Context, r: RawPrior)
    requires r.kind.Known? && r.kind.tag != NoPrior
    ensures RepairPrior(ctx, r).kind == r.kind <==> Supported(ctx, r.evidence, ctx.cues.prior)
    ensures ctx.Literal(r.evidence.Render()) ==> RepairPrior(ctx, r) == r
  {
    EvidenceIffSupported(ctx, r.evidence, ctx.cues.prior);
  }

  lemma PostPurchaseKept(ctx: Context, r: RawPostPurchase)
    requires r.detected.Truthy()
    ensures RepairPostPurchase(ctx, r).detected == r.detected <==> Supported(ctx, r.evidence, ctx.cues.postPurchase)
    ensures ctx.Literal(r.evidence.Render()) ==> RepairPostPurchase(ctx, r) == r
  {
    EvidenceIffSupported(ctx, r.evidence, ctx.cues.postPurchase);
  }

  lemma CountKept(ctx: Context, r: RawCount)
    requires r.value.Some? && r.value.value >= 1
    ensures RepairCount(ctx, Dict(r)).Dict? <==> Supported(ctx, r.evidence, ctx.cues.count(r.value.value))
    ensures ctx.Literal(r.evidence.Render()) ==> RepairCount(ctx, Dict(r)) == Dict(r)
  {
    EvidenceIffSupported(ctx, r.evidence, ctx.cues.count(r.value.value));
  }
}
