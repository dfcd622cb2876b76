/** The repair pass over an analyzer payload, the strict model it is fed to, and
    the re-check of every quoted span (analyzer/contract_v3.py). */
module Sanitizer {
  import opened Commercial
  import opened Evidence
  import opened Observations

  // ---------- raw payloads ----------

  /** An evidence value as the payload holds it. `Alien` is any non-string JSON
      value, with what it reads as once coerced to text. */
  datatype RawText = NullText | Text(text: string) | Alien(rendered: string) {
    function Render(): string {
      match this
      case NullText => ""
      case Text(s) => s
      case Alien(s) => s
    }
  }

  /** A field drawn from a fixed vocabulary: absent, a word of the vocabulary, a
      falsy value (null, "", 0) or any other value. */
  datatype RawTag<+T> = Missing | Known(tag: T) | Falsy | Foreign

  /** `others`: every remaining key of the object is acceptable to the model. */
  datatype RawItem<+T> = RawItem(tag: RawTag<T>, evidence: RawText, others: bool)
  datatype RawElement<+T> = NotAnObject | Object(item: T)
  datatype RawList<+T> = NoList | NotAList | List(elements: seq<RawElement<T>>)
  datatype Section<+T> = NoSection | NotADict | Dict(value: T)

  /** `"none"` is not a product here: for this field the sanitiser treats it as
      it treats a value outside the vocabulary. */
  datatype RawProduct = RawProduct(product: RawTag<Product>, role: RawTag<ReferenceRole>,
                                   evidence: RawText, others: bool)
  datatype RawCount = RawCount(value: Option<int>, evidence: RawText, others: bool)
  datatype RawObjection = RawObjection(kind: RawTag<ObjectionType>, strength: RawTag<ObjectionStrength>,
                                       legacyRelation: bool, evidence: RawText, others: bool)
  datatype RawPrior = RawPrior(kind: RawTag<PriorType>, topicHint: RawText, evidence: RawText, others: bool)

  /** A boolean field. The model also parses some foreign values ("yes", 0); no
      falsy one of them parses to true. */
  datatype RawFlag = Flag(value: bool) | FalsyForeign(parses: bool) | TruthyForeign(parsed: Option<bool>) {
    predicate Truthy() {
      match this
      case Flag(b) => b
      case FalsyForeign(_) => false
      case TruthyForeign(_) => true
    }

    function Parsed(): Option<bool> {
      match this
      case Flag(b) => Some(b)
      case FalsyForeign(parses) => if parses then Some(false) else None
      case TruthyForeign(parsed) => parsed
    }
  }
  datatype RawPostPurchase = RawPostPurchase(detected: RawFlag, evidence: RawText, others: bool)

  datatype RawFacts = RawFacts(intent: Intent, updateIntent: UpdateIntent,
                               businessType: string, mainChannel: string, painOrGoal: string)

  /** `rest` is what the untouched sections parse to, if they do. */
  datatype Payload = Payload(
    currentVersion: bool,
    problems: RawList<RawItem<Problem>>,
    capabilities: RawList<RawItem<Capability>>,
    actions: RawList<RawItem<Action>>,
    count: Section<RawCount>,
    products: RawList<RawProduct>,
    objection: Section<RawObjection>,
    relation: Section<RawItem<AnalyzerRelation>>,
    readiness: Section<RawItem<BuyingSignal>>,
    prior: Section<RawPrior>,
    postPurchase: Section<RawPostPurchase>,
    rest: Option<RawFacts>)

  // ---------- cues ----------

  /** The cue tables, in the order they are tried. */
  datatype Cues = Cues(
    problem: Problem -> seq<string>, capability: Capability -> seq<string>, action: Action -> seq<string>,
    count: int -> seq<string>, objection: ObjectionType -> seq<string>,
    readiness: BuyingSignal -> seq<string>, prior: seq<string>, postPurchase: seq<string>,
    product: Product -> seq<string>)

  /** `isBlank` is the model's own test that a string is only white space. */
  datatype Context = Context(norm: Normalizer, cues: Cues, isBlank: string -> bool, message: string) {
    predicate Literal(span: string) {
      SpanInMessage(norm, span, message)
    }

    /** The product names have a normal form. */
    ghost predicate ProductNamesVisible() {
      forall p: Product, c: string :: c in cues.product(p) ==> norm(c) != ""
    }
  }

  /** `_first_matching_evidence` */
  function FirstMatch(norm: Normalizer, text: string, cues: seq<string>): (r: Option<string>)
    ensures r.Some? ==> r.value in cues && SpanInMessage(norm, r.value, text)
    ensures r.None? ==> forall c :: c in cues ==> !SpanInMessage(norm, c, text)
  {
    if cues == [] then None
    else if SpanInMessage(norm, cues[0], text) then Some(cues[0])
    else FirstMatch(norm, text, cues[1..])
  }

  /** The first cue found in a text is the first cue found in that cue: an
      earlier cue inside it would have been found in the text. */
  lemma {:induction false} FirstMatchStable(norm: Normalizer, text: string, cues: seq<string>)
    requires FirstMatch(norm, text, cues).Some?
    ensures var c := FirstMatch(norm, text, cues).value; FirstMatch(norm, c, cues) == Some(c)
  {
    var c := FirstMatch(norm, text, cues).value;
    if SpanInMessage(norm, cues[0], text) {
      InfixReflexive(norm(c));
    } else {
      FirstMatchStable(norm, text, cues[1..]);
      if SpanInMessage(norm, cues[0], c) {
        SpanTransitive(norm, cues[0], c, text);
      }
    }
  }

  lemma FirstMatchNarrows(norm: Normalizer, span: string, message: string, cues: seq<string>)
    requires FirstMatch(norm, span, cues).Some? && SpanInMessage(norm, span, message)
    ensures SpanInMessage(norm, FirstMatch(norm, span, cues).value, message)
  {
    SpanTransitive(norm, FirstMatch(norm, span, cues).value, span, message);
  }

  // ---------- lists of quoted observations ----------

  function RepairProblem(ctx: Context, item: RawItem<Problem>): (r: Option<RawItem<Problem>>)
    ensures r.Some? ==> r.value.tag == item.tag && ctx.Literal(r.value.evidence.Render())
  {
    if !item.tag.Known? then None
    else if ctx.Literal(item.evidence.Render()) then Some(item)
    else
      match FirstMatch(ctx.norm, ctx.message, ctx.cues.problem(item.tag.tag))
      case Some(cue) => Some(item.(evidence := Text(cue)))
      case None => None
  }

  /** Capabilities and actions are repaired alike, each with its own cues: a
      literal span must itself contain a cue, and one that quotes the whole
      message is narrowed to that cue. */
  function RepairNarrowed<T>(ctx: Context, cuesOf: T -> seq<string>, item: RawItem<T>): Option<RawItem<T>> {
    if !item.tag.Known? then None
    else
      var cues := cuesOf(item.tag.tag);
      var span := item.evidence.Render();
      if ctx.Literal(span) then
        match FirstMatch(ctx.norm, span, cues)
        case None => None
        case Some(cue) =>
          if ctx.norm(span) == ctx.norm(ctx.message) then Some(item.(evidence := Text(cue))) else Some(item)
      else
        match FirstMatch(ctx.norm, ctx.message, cues)
        case Some(cue) => Some(item.(evidence := Text(cue)))
        case None => None
  }

  lemma RepairProblemStable(ctx: Context, item: RawItem<Problem>)
    ensures var r := RepairProblem(ctx, item); r.Some? ==> RepairProblem(ctx, r.value) == r
  {
  }

  lemma RepairNarrowedStable<T>(ctx: Context, cuesOf: T -> seq<string>, item: RawItem<T>)
    ensures var r := RepairNarrowed(ctx, cuesOf, item);
            r.Some? ==> r.value.tag == item.tag && ctx.Literal(r.value.evidence.Render())
                        && RepairNarrowed(ctx, cuesOf, r.value) == r
  {
    if item.tag.Known? {
      var cues := cuesOf(item.tag.tag);
      var span := item.evidence.Render();
      if ctx.Literal(span) {
        if FirstMatch(ctx.norm, span, cues).Some? {
          FirstMatchNarrows(ctx.norm, span, ctx.message, cues);
          FirstMatchStable(ctx.norm, span, cues);
        }
      } else if FirstMatch(ctx.norm, ctx.message, cues).Some? {
        FirstMatchStable(ctx.norm, ctx.message, cues);
      }
    }
  }

  /** What the repair keeps: exactly the items with a literal span that names
      the thing observed, and those whose name can be found in the message. */
  lemma RepairNarrowedSurvives<T>(ctx: Context, cuesOf: T -> seq<string>, item: RawItem<T>)
    requires item.tag.Known?
    ensures var span, cues := item.evidence.Render(), cuesOf(item.tag.tag);
            var within := if ctx.Literal(span) then span else ctx.message;
            RepairNarrowed(ctx, cuesOf, item).Some? <==>
              exists i :: 0 <= i < |cues| && SpanInMessage(ctx.norm, cues[i], within)
  {
    var span, cues := item.evidence.Render(), cuesOf(item.tag.tag);
    var within := if ctx.Literal(span) then span else ctx.message;
    var found := FirstMatch(ctx.norm, within, cues);
    if found.Some? {
      var i :| 0 <= i < |cues| && cues[i] == found.value;
    }
  }

  function Repaired<T>(repair: T -> Option<T>, elements: seq<RawElement<T>>): seq<RawElement<T>> {
    if elements == [] then []
    else
      var n := |elements| - 1;
      Repaired(repair, elements[..n]) +
      (if elements[n].NotAnObject? then []
       else match repair(elements[n].item) case Some(r) => [Object(r)] case None => [])
  }

  ghost predicate AllSatisfy<T(!new)>(p: T -> bool, elements: seq<RawElement<T>>) {
    forall i :: 0 <= i < |elements| ==> elements[i].Object? && p(elements[i].item)
  }

  lemma {:induction false} RepairedAll<T(!new)>(repair: T -> Option<T>, p: T -> bool, elements: seq<RawElement<T>>)
    requires forall x :: repair(x).Some? ==> p(repair(x).value)
    ensures AllSatisfy(p, Repaired(repair, elements))
  {
    if elements != [] {
      var n := |elements| - 1;
      RepairedAll(repair, p, elements[..n]);
      if elements[n].Object? && repair(elements[n].item).Some? {
        assert p(repair(elements[n].item).value);
      }
    }
  }

  lemma {:induction false} RepairedFixed<T(!new)>(repair: T -> Option<T>, out: seq<RawElement<T>>)
    requires AllSatisfy(x => repair(x) == Some(x), out)
    ensures Repaired(repair, out) == out
  {
    if out != [] {
      RepairedFixed(repair, out[..|out| - 1]);
    }
  }

  method SanitizeBusinessProblems(ctx: Context, problems: seq<RawElement<RawItem<Problem>>>)
    returns (sanitized: seq<RawElement<RawItem<Problem>>>)
    ensures sanitized == Repaired(x => RepairProblem(ctx, x), problems)
  {
    ghost var repair := x => RepairProblem(ctx, x);
    sanitized := [];
    for i := 0 to |problems|
      invariant sanitized == Repaired(repair, problems[..i])
    {
      assert problems[..i + 1][..i] == problems[..i];
      if problems[i].NotAnObject? || !problems[i].item.tag.Known? {
        continue;
      }
      var problem := problems[i].item;
      if ctx.Literal(problem.evidence.Render()) {
        sanitized := sanitized + [Object(problem)];
        continue;
      }
      var repaired := FirstMatch(ctx.norm, ctx.message, ctx.cues.problem(problem.tag.tag));
      if repaired.Some? {
        sanitized := sanitized + [Object(problem.(evidence := Text(repaired.value)))];
      }
    }
    assert problems[..|problems|] == problems;
  }

  method SanitizeRequested<T>(ctx: Context, cuesOf: T -> seq<string>, items: seq<RawElement<RawItem<T>>>)
    returns (sanitized: seq<RawElement<RawItem<T>>>)
    ensures sanitized == Repaired(x => RepairNarrowed(ctx, cuesOf, x), items)
  {
    ghost var repair := x => RepairNarrowed(ctx, cuesOf, x);
    sanitized := [];
    for i := 0 to |items|
      invariant sanitized == Repaired(repair, items[..i])
    {
      assert items[..i + 1][..i] == items[..i];
      if items[i].NotAnObject? || !items[i].item.tag.Known? {
        continue;
      }
      var item := items[i].item;
      var span := item.evidence.Render();
      if ctx.Literal(span) {
        var ontology := FirstMatch(ctx.norm, span, cuesOf(item.tag.tag));
        if ontology.None? {
          continue;
        }
        if ctx.norm(span) == ctx.norm(ctx.message) {
          sanitized := sanitized + [Object(item.(evidence := Text(ontology.value)))];
          continue;
        }
        sanitized := sanitized + [Object(item)];
        continue;
      }
      var repaired := FirstMatch(ctx.norm, ctx.message, cuesOf(item.tag.tag));
      if repaired.Some? {
        sanitized := sanitized + [Object(item.(evidence := Text(repaired.value)))];
      }
    }
    assert items[..|items|] == items;
  }

  // ---------- product references ----------

  function RoleRank(role: RawTag<ReferenceRole>): int {
    match role
    case Known(Mentioned) => 0
    case Known(ComparisonAlternative) => 1
    case Known(QuestionSubject) => 2
    case Known(Preferred) => 3
    case Known(Committed) => 4
    case _ => -1
  }

  /** The first name of the product that occurs in the message. */
  function NameInMessage(ctx: Context, names: seq<string>): (r: Option<string>)
    ensures r.Some? ==> r.value in names && Infix(ctx.norm(r.value), ctx.norm(ctx.message))
  {
    if names == [] then None
    else if Infix(ctx.norm(names[0]), ctx.norm(ctx.message)) then Some(names[0])
    else NameInMessage(ctx, names[1..])
  }

  /** A reference is re-derived from the message whatever span it came with. */
  function RepairProduct(ctx: Context, item: RawProduct): Option<RawProduct> {
    if !item.product.Known? || item.product.tag == UnknownProduct || !item.role.Known? then None
    else
      match NameInMessage(ctx, ctx.cues.product(item.product.tag))
      case None => None
      case Some(name) => Some(item.(evidence := Text(name)))
  }

  function IndexOf<T, K(==)>(key: T -> K, xs: seq<T>, k: K): (i: nat)
    ensures i <= |xs|
    ensures i < |xs| ==> key(xs[i]) == k
    ensures forall j :: 0 <= j < i ==> key(xs[j]) != k
  {
    if xs == [] then 0
    else if key(xs[0]) == k then 0
    else 1 + IndexOf(key, xs[1..], k)
  }

  /** One reference per product: the first one seen, replaced only by a later
      one of strictly higher rank. */
  function Dedupe<T, K(==)>(key: T -> K, rank: T -> int, xs: seq<T>): seq<T> {
    if xs == [] then []
    else
      var n := |xs| - 1;
      var kept := Dedupe(key, rank, xs[..n]);
      var i := IndexOf(key, kept, key(xs[n]));
      if i == |kept| then kept + [xs[n]]
      else if rank(xs[n]) > rank(kept[i]) then kept[i := xs[n]]
      else kept
  }

  predicate UniqueKeys<T, K(==)>(key: T -> K, xs: seq<T>) {
    forall i, j :: 0 <= i < j < |xs| ==> key(xs[i]) != key(xs[j])
  }

  ghost predicate Represented<T, K>(key: T -> K, rank: T -> int, x: T, kept: seq<T>) {
    exists i :: 0 <= i < |kept| && key(kept[i]) == key(x) && rank(kept[i]) >= rank(x)
  }

  lemma {:induction false} DedupeMeaning<T, K>(key: T -> K, rank: T -> int, xs: seq<T>)
    ensures var kept := Dedupe(key, rank, xs);
            && UniqueKeys(key, kept)
            && (forall r :: r in kept ==> r in xs)
            && forall x :: x in xs ==> Represented(key, rank, x, kept)
  {
    if xs != [] {
      var n := |xs| - 1;
      DedupeMeaning(key, rank, xs[..n]);
      var before, kept := Dedupe(key, rank, xs[..n]), Dedupe(key, rank, xs);
      var at := IndexOf(key, before, key(xs[n]));
      assert forall r :: r in before ==> r in xs[..n] && r in xs;
      assert forall r :: r in kept ==> r in before || r == xs[n];
      assert at < |kept| && key(kept[at]) == key(xs[n]) && rank(kept[at]) >= rank(xs[n]);
      assert forall i :: 0 <= i < |before| ==>
                           key(kept[i]) == key(before[i]) && rank(kept[i]) >= rank(before[i]);
      forall x | x in xs ensures Represented(key, rank, x, kept) {
        if x in xs[..n] {
          assert Represented(key, rank, x, before);
        }
      }
    }
  }

  lemma {:induction false} IndexOfSnoc<T, K>(key: T -> K, xs: seq<T>, last: T, k: K)
    ensures var i := IndexOf(key, xs, k);
            IndexOf(key, xs + [last], k) == if i < |xs| || key(last) == k then i else |xs| + 1
  {
    if xs != [] {
      assert (xs + [last])[1..] == xs[1..] + [last];
      IndexOfSnoc(key, xs[1..], last, k);
    }
  }

  /** Of all references with the key of this one it has the highest rank, and it
      is the first with that rank. */
  ghost predicate FirstOfHighestRank<T, K>(key: T -> K, rank: T -> int, xs: seq<T>, p: nat) {
    && p < |xs|
    && forall q :: 0 <= q < |xs| && key(xs[q]) == key(xs[p]) ==>
         rank(xs[q]) <= rank(xs[p]) && (q < p ==> rank(xs[q]) < rank(xs[p]))
  }

  lemma NewKeyIsNew<T, K>(key: T -> K, rank: T -> int, xs: seq<T>, k: K)
    requires IndexOf(key, Dedupe(key, rank, xs), k) == |Dedupe(key, rank, xs)|
    ensures forall q :: 0 <= q < |xs| ==> key(xs[q]) != k
  {
    DedupeMeaning(key, rank, xs);
    forall q | 0 <= q < |xs| ensures key(xs[q]) != k {
      assert xs[q] in xs;
      assert Represented(key, rank, xs[q], Dedupe(key, rank, xs));
    }
  }

  lemma {:induction false} KeptIsFirstOfHighestRank<T, K>(key: T -> K, rank: T -> int, xs: seq<T>, i: nat)
    returns (p: nat)
    requires i < |Dedupe(key, rank, xs)|
    ensures FirstOfHighestRank(key, rank, xs, p) && Dedupe(key, rank, xs)[i] == xs[p]
  {
    var n := |xs| - 1;
    var past := xs[..n];
    var before := Dedupe(key, rank, past);
    var at := IndexOf(key, before, key(xs[n]));
    DedupeMeaning(key, rank, past);
    if i == |before| {
      NewKeyIsNew(key, rank, past, key(xs[n]));
      p := n;
      assert forall q :: 0 <= q < n ==> xs[q] == past[q];
    } else {
      p := KeptIsFirstOfHighestRank(key, rank, past, i);
      assert forall q :: 0 <= q < n ==> xs[q] == past[q];
      if i == at && rank(xs[n]) > rank(before[i]) {
        p := n;
      }
    }
  }

  lemma {:induction false} KeptInOrder<T, K>(key: T -> K, rank: T -> int, xs: seq<T>, i: nat, j: nat)
    requires i < j < |Dedupe(key, rank, xs)|
    ensures var kept := Dedupe(key, rank, xs);
            IndexOf(key, xs, key(kept[i])) < IndexOf(key, xs, key(kept[j])) < |xs|
  {
    var n := |xs| - 1;
    var past, last := xs[..n], xs[n];
    var before, kept := Dedupe(key, rank, past), Dedupe(key, rank, xs);
    assert past + [last] == xs;
    assert key(kept[i]) == key(before[i]);
    IndexOfSnoc(key, past, last, key(kept[i]));
    IndexOfSnoc(key, past, last, key(kept[j]));
    if j < |before| {
      assert key(kept[j]) == key(before[j]);
      KeptInOrder(key, rank, past, i, j);
    } else {
      DedupeMeaning(key, rank, past);
      assert before[i] in before;
      var q :| 0 <= q < |past| && past[q] == before[i];
      NewKeyIsNew(key, rank, past, key(last));
    }
  }

  /** Of the references to one product the first of the highest rank is kept, and
      the products stay in the order of their first mention. */
  lemma DedupeKeepsTheBest<T, K>(key: T -> K, rank: T -> int, xs: seq<T>)
    ensures var kept := Dedupe(key, rank, xs);
            && (forall i :: 0 <= i < |kept| ==>
                  exists p: nat :: FirstOfHighestRank(key, rank, xs, p) && kept[i] == xs[p])
            && (forall i, j :: 0 <= i < j < |kept| ==>
                                 IndexOf(key, xs, key(kept[i])) < IndexOf(key, xs, key(kept[j])) < |xs|)
  {
    var kept := Dedupe(key, rank, xs);
    forall i | 0 <= i < |kept| ensures exists p: nat :: FirstOfHighestRank(key, rank, xs, p) && kept[i] == xs[p] {
      var p := KeptIsFirstOfHighestRank(key, rank, xs, i);
      assert FirstOfHighestRank(key, rank, xs, p) && kept[i] == xs[p];
    }
    forall i: nat, j: nat | i < j < |kept|
      ensures IndexOf(key, xs, key(kept[i])) < IndexOf(key, xs, key(kept[j])) < |xs|
    {
      KeptInOrder(key, rank, xs, i, j);
    }
  }

  lemma {:induction false} DedupeFixed<T, K>(key: T -> K, rank: T -> int, xs: seq<T>)
    requires UniqueKeys(key, xs)
    ensures Dedupe(key, rank, xs) == xs
  {
    if xs != [] {
      DedupeFixed(key, rank, xs[..|xs| - 1]);
    }
  }

  function ProductKey(x: RawProduct): RawTag<Product> { x.product }
  function ProductRank(x: RawProduct): int { RoleRank(x.role) }

  ghost predicate Tabulates(byProduct: map<RawTag<Product>, RawProduct>, order: seq<RawTag<Product>>,
                            kept: seq<RawProduct>) {
    && |order| == |kept|
    && (forall i :: 0 <= i < |order| ==> order[i] == ProductKey(kept[i]))
    && (forall i :: 0 <= i < |order| ==> order[i] in byProduct && byProduct[order[i]] == kept[i])
    && (forall k :: k in byProduct ==> k in order)
  }

  lemma {:induction false} TabulateStep(byProduct: map<RawTag<Product>, RawProduct>, order: seq<RawTag<Product>>,
                     kept: seq<RawProduct>, x: RawProduct)
    requires Tabulates(byProduct, order, kept) && UniqueKeys(ProductKey, kept)
    ensures var at := IndexOf(ProductKey, kept, x.product);
            && (x.product in byProduct <==> at < |kept|)
            && (at < |kept| ==> byProduct[x.product] == kept[at]
                                && Tabulates(byProduct[x.product := x], order, kept[at := x]))
            && (at == |kept| ==> Tabulates(byProduct[x.product := x], order + [x.product], kept + [x]))
  {
    var at := IndexOf(ProductKey, kept, x.product);
    assert at < |kept| ==> order[at] == x.product;
    if x.product in byProduct {
      var i :| 0 <= i < |order| && order[i] == x.product;
      assert ProductKey(kept[i]) == x.product;
    }
  }

  /** `_dedupe_product_references`: a dictionary and the order of its keys. */
  method DedupeProductReferences(references: seq<RawProduct>) returns (kept: seq<RawProduct>)
    ensures kept == Dedupe(ProductKey, ProductRank, references)
    ensures UniqueKeys(ProductKey, kept)
  {
    var byProduct: map<RawTag<Product>, RawProduct> := map[];
    var order: seq<RawTag<Product>> := [];
    ghost var table: seq<RawProduct> := [];
    for i := 0 to |references|
      invariant table == Dedupe(ProductKey, ProductRank, references[..i])
      invariant Tabulates(byProduct, order, table)
    {
      DedupeMeaning(ProductKey, ProductRank, references[..i]);
      assert references[..i + 1][..i] == references[..i];
      var reference := references[i];
      TabulateStep(byProduct, order, table, reference);
      table := Dedupe(ProductKey, ProductRank, references[..i + 1]);
      if reference.product !in byProduct {
        byProduct := byProduct[reference.product := reference];
        order := order + [reference.product];
        continue;
      }
      var current := byProduct[reference.product];
      if ProductRank(reference) > ProductRank(current) {
        byProduct := byProduct[reference.product := reference];
      }
    }
    assert references[..|references|] == references;
    DedupeMeaning(ProductKey, ProductRank, references);
    kept := seq(|order|, i requires 0 <= i < |order| && order[i] in byProduct => byProduct[order[i]]);
  }

  function Items<T>(elements: seq<RawElement<T>>): seq<T> {
    if elements == [] then []
    else
      var n := |elements| - 1;
      Items(elements[..n]) + (if elements[n].Object? then [elements[n].item] else [])
  }

  function Objects<T>(items: seq<T>): seq<RawElement<T>> {
    seq(|items|, i requires 0 <= i < |items| => Object(items[i]))
  }

  lemma {:induction false} ItemsOfObjects<T>(items: seq<T>)
    ensures Items(Objects(items)) == items
  {
    if items != [] {
      var n := |items| - 1;
      ItemsOfObjects(items[..n]);
      assert Objects(items)[..n] == Objects(items[..n]);
    }
  }

  function RepairProducts(ctx: Context, elements: seq<RawElement<RawProduct>>): seq<RawElement<RawProduct>> {
    Objects(Dedupe(ProductKey, ProductRank, Items(Repaired(x => RepairProduct(ctx, x), elements))))
  }

  method SanitizeProductReferences(ctx: Context, references: seq<RawElement<RawProduct>>)
    returns (sanitized: seq<RawElement<RawProduct>>)
    ensures sanitized == RepairProducts(ctx, references)
  {
    ghost var repair := x => RepairProduct(ctx, x);
    var kept: seq<RawProduct> := [];
    for i := 0 to |references|
      invariant kept == Items(Repaired(repair, references[..i]))
    {
      assert references[..i + 1][..i] == references[..i];
      ghost var before := Repaired(repair, references[..i]);
      if references[i].NotAnObject? {
        assert Repaired(repair, references[..i + 1]) == before;
        continue;
      }
      var item := references[i].item;
      if !item.product.Known? || item.product.tag == UnknownProduct || !item.role.Known? {
        assert Repaired(repair, references[..i + 1]) == before;
        continue;
      }
      var name := NameInMessage(ctx, ctx.cues.product(item.product.tag));
      if name.None? {
        assert Repaired(repair, references[..i + 1]) == before;
        continue;
      }
      item := item.(evidence := Text(name.value));
      assert Repaired(repair, references[..i + 1]) == before + [Object(item)];
      assert (before + [Object(item)])[..|before|] == before;
      kept := kept + [item];
    }
    assert references[..|references|] == references;
    kept := DedupeProductReferences(kept);
    sanitized := Objects(kept);
  }

  ghost predicate NamedInMessage(ctx: Context, x: RawProduct) {
    && x.product.Known? && x.role.Known? && x.product.tag != UnknownProduct
    && RepairProduct(ctx, x) == Some(x)
    && x.evidence.Text? && Infix(ctx.norm(x.evidence.text), ctx.norm(ctx.message))
    && x.evidence.text in ctx.cues.product(x.product.tag)
  }

  lemma {:induction false} ItemsOf<T(!new)>(p: T -> bool, elements: seq<RawElement<T>>)
    requires AllSatisfy(p, elements)
    ensures forall x :: x in Items(elements) ==> p(x)
  {
    if elements != [] {
      var n := |elements| - 1;
      ItemsOf(p, elements[..n]);
      assert elements[n].Object? && p(elements[n].item);
    }
  }

  /** Sanitised references: one per product, each quoting a name of its product
      that is in the message; sanitising them again changes nothing. */
  lemma RepairProductsStable(ctx: Context, elements: seq<RawElement<RawProduct>>)
    ensures var out := RepairProducts(ctx, elements);
            && UniqueKeys(ProductKey, Items(out))
            && AllSatisfy(x => NamedInMessage(ctx, x), out)
            && RepairProducts(ctx, out) == out
  {
    var repair := x => RepairProduct(ctx, x);
    var named := x => NamedInMessage(ctx, x);
    var items := Items(Repaired(repair, elements));
    var kept := Dedupe(ProductKey, ProductRank, items);
    RepairedAll(repair, named, elements);
    ItemsOf(named, Repaired(repair, elements));
    DedupeMeaning(ProductKey, ProductRank, items);
    var out := Objects(kept);
    forall i | 0 <= i < |out| ensures out[i].Object? && named(out[i].item) {
      assert kept[i] in items;
    }
    RepairedFixed(repair, out);
    ItemsOfObjects(kept);
    DedupeFixed(ProductKey, ProductRank, kept);
  }

  // ---------- single sections ----------

  function WithEvidence(ctx: Context, evidence: RawText, cues: seq<string>): (r: Option<RawText>)
    ensures r.Some? ==> ctx.Literal(r.value.Render())
    ensures ctx.Literal(evidence.Render()) ==> r == Some(evidence)
  {
    if ctx.Literal(evidence.Render()) then Some(evidence)
    else
      match FirstMatch(ctx.norm, ctx.message, cues)
      case Some(cue) => Some(Text(cue))
      case None => None
  }

  function RepairCount(ctx: Context, section: Section<RawCount>): Section<RawCount> {
    if !section.Dict? then section
    else if section.value.value.None? || section.value.value.value < 1 then NoSection
    else
      match WithEvidence(ctx, section.value.evidence, ctx.cues.count(section.value.value.value))
      case Some(evidence) => Dict(section.value.(evidence := evidence))
      case None => NoSection
  }

  predicate ReadsAsNone<T(==)>(tag: RawTag<T>, none: T) {
    tag.Missing? || tag.Falsy? || tag == Known(none)
  }

  function RepairObjection(ctx: Context, o: RawObjection): RawObjection {
    var cleared := o.(strength := Known(NoStrength), legacyRelation := false, evidence := NullText);
    if ReadsAsNone(o.kind, NoObjection) then cleared
    else if o.kind.Foreign? || o.strength.Foreign? || ReadsAsNone(o.strength, NoStrength) then
      cleared.(kind := Known(NoObjection))
    else
      match WithEvidence(ctx, o.evidence, ctx.cues.objection(o.kind.tag))
      case Some(evidence) => o.(evidence := evidence)
      case None => cleared.(kind := Known(NoObjection))
  }

  function RepairRelation(ctx: Context, r: RawItem<AnalyzerRelation>): RawItem<AnalyzerRelation> {
    if ReadsAsNone(r.tag, NoneObserved) then r.(evidence := NullText)
    else if r.tag.Foreign? || !ctx.Literal(r.evidence.Render()) then
      r.(tag := Known(NoneObserved), evidence := NullText)
    else r
  }

  function RepairReadiness(ctx: Context, r: RawItem<BuyingSignal>): RawItem<BuyingSignal> {
    if r.tag != Known(High) && r.tag != Known(ExplicitStart) then r
    else
      match WithEvidence(ctx, r.evidence, ctx.cues.readiness(r.tag.tag))
      case Some(evidence) => r.(evidence := evidence)
      case None => r.(tag := Known(NoSignal), evidence := NullText)
  }

  function RepairPrior(ctx: Context, r: RawPrior): RawPrior {
    if ReadsAsNone(r.kind, NoPrior) then r.(topicHint := NullText, evidence := NullText)
    else
      match WithEvidence(ctx, r.evidence, ctx.cues.prior)
      case Some(evidence) => r.(evidence := evidence)
      case None => r.(kind := Known(NoPrior), topicHint := NullText, evidence := NullText)
  }

  function RepairPostPurchase(ctx: Context, r: RawPostPurchase): RawPostPurchase {
    if !r.detected.Truthy() then r.(evidence := NullText)
    else
      match WithEvidence(ctx, r.evidence, ctx.cues.postPurchase)
      case Some(evidence) => r.(evidence := evidence)
      case None => r.(detected := Flag(false), evidence := NullText)
  }

  function OnList<T>(list: RawList<T>, f: seq<RawElement<T>> -> seq<RawElement<T>>): RawList<T> {
    if list.List? then List(f(list.elements)) else list
  }

  function OnDict<T>(section: Section<T>, f: T -> T): Section<T> {
    if section.Dict? then Dict(f(section.value)) else section
  }

  /** `sanitize_analyzer_observation_payload` */
  function Sanitize(ctx: Context, p: Payload): Payload {
    Payload(
      true,
      OnList(p.problems, es => Repaired(x => RepairProblem(ctx, x), es)),
      OnList(p.capabilities, es => Repaired(x => RepairNarrowed(ctx, ctx.cues.capability, x), es)),
      OnList(p.actions, es => Repaired(x => RepairNarrowed(ctx, ctx.cues.action, x), es)),
      RepairCount(ctx, p.count),
      OnList(p.products, es => RepairProducts(ctx, es)),
      OnDict(p.objection, o => RepairObjection(ctx, o)),
      OnDict(p.relation, r => RepairRelation(ctx, r)),
      OnDict(p.readiness, r => RepairReadiness(ctx, r)),
      OnDict(p.prior, r => RepairPrior(ctx, r)),
      OnDict(p.postPurchase, r => RepairPostPurchase(ctx, r)),
      p.rest)
  }

  /** The payload copy the sanitiser works on, section by section in place. */
  class PayloadCopy {
    var currentVersion: bool
    var problems: RawList<RawItem<Problem>>
    var capabilities: RawList<RawItem<Capability>>
    var actions: RawList<RawItem<Action>>
    var count: Section<RawCount>
    var products: RawList<RawProduct>
    var objection: Section<RawObjection>
    var relation: Section<RawItem<AnalyzerRelation>>
    var readiness: Section<RawItem<BuyingSignal>>
    var prior: Section<RawPrior>
    var postPurchase: Section<RawPostPurchase>
    var rest: Option<RawFacts>

    function Value(): Payload
      reads this
    {
      Payload(currentVersion, problems, capabilities, actions, count, products, objection, relation,
              readiness, prior, postPurchase, rest)
    }

    constructor (p: Payload)
      ensures Value() == p
    {
      currentVersion, problems, capabilities, actions := p.currentVersion, p.problems, p.capabilities, p.actions;
      count, products, objection, relation := p.count, p.products, p.objection, p.relation;
      readiness, prior, postPurchase, rest := p.readiness, p.prior, p.postPurchase, p.rest;
    }

    method SanitizeObjection(ctx: Context)
      requires objection.Dict?
      modifies this`objection
      ensures objection == Dict(RepairObjection(ctx, old(objection.value)))
    {
      var o := objection.value;
      if ReadsAsNone(o.kind, NoObjection) {
        o := o.(strength := Known(NoStrength));
        o := o.(legacyRelation := false);
        o := o.(evidence := NullText);
        objection := Dict(o);
        return;
      }
      if !o.kind.Foreign? && !o.strength.Foreign? && !ReadsAsNone(o.strength, NoStrength) {
        if ctx.Literal(o.evidence.Render()) {
          return;
        }
        var repaired := FirstMatch(ctx.norm, ctx.message, ctx.cues.objection(o.kind.tag));
        if repaired.Some? {
          objection := Dict(o.(evidence := Text(repaired.value)));
          return;
        }
      }
      o := o.(kind := Known(NoObjection));
      o := o.(strength := Known(NoStrength));
      o := o.(legacyRelation := false);
      objection := Dict(o.(evidence := NullText));
    }

    method SanitizeRelation(ctx: Context)
      requires relation.Dict?
      modifies this`relation
      ensures relation == Dict(RepairRelation(ctx, old(relation.value)))
    {
      var r := relation.value;
      if r.tag.Foreign? {
        r := r.(tag := Known(NoneObserved));
        relation := Dict(r.(evidence := NullText));
        return;
      }
      if ReadsAsNone(r.tag, NoneObserved) {
        relation := Dict(r.(evidence := NullText));
        return;
      }
      if !ctx.Literal(r.evidence.Render()) {
        r := r.(tag := Known(NoneObserved));
        relation := Dict(r.(evidence := NullText));
      }
    }

    method SanitizeReadiness(ctx: Context)
      requires readiness.Dict?
      modifies this`readiness
      ensures readiness == Dict(RepairReadiness(ctx, old(readiness.value)))
    {
      var r := readiness.value;
      if r.tag != Known(High) && r.tag != Known(ExplicitStart) {
        return;
      }
      if ctx.Literal(r.evidence.Render()) {
        return;
      }
      var repaired := FirstMatch(ctx.norm, ctx.message, ctx.cues.readiness(r.tag.tag));
      if repaired.Some? {
        readiness := Dict(r.(evidence := Text(repaired.value)));
        return;
      }
      r := r.(tag := Known(NoSignal));
      readiness := Dict(r.(evidence := NullText));
    }

    method SanitizePrior(ctx: Context)
      requires prior.Dict?
      modifies this`prior
      ensures prior == Dict(RepairPrior(ctx, old(prior.value)))
    {
      var r := prior.value;
      if ReadsAsNone(r.kind, NoPrior) {
        r := r.(topicHint := NullText);
        prior := Dict(r.(evidence := NullText));
        return;
      }
      if ctx.Literal(r.evidence.Render()) {
        return;
      }
      var repaired := FirstMatch(ctx.norm, ctx.message, ctx.cues.prior);
      if repaired.Some? {
        prior := Dict(r.(evidence := Text(repaired.value)));
        return;
      }
      r := r.(kind := Known(NoPrior));
      r := r.(topicHint := NullText);
      prior := Dict(r.(evidence := NullText));
    }

    method SanitizePostPurchase(ctx: Context)
      requires postPurchase.Dict?
      modifies this`postPurchase
      ensures postPurchase == Dict(RepairPostPurchase(ctx, old(postPurchase.value)))
    {
      var r := postPurchase.value;
      if !r.detected.Truthy() {
        postPurchase := Dict(r.(evidence := NullText));
        return;
      }
      if ctx.Literal(r.evidence.Render()) {
        return;
      }
      var repaired := FirstMatch(ctx.norm, ctx.message, ctx.cues.postPurchase);
      if repaired.Some? {
        postPurchase := Dict(r.(evidence := Text(repaired.value)));
        return;
      }
      r := r.(detected := Flag(false));
      postPurchase := Dict(r.(evidence := NullText));
    }

    method SanitizeCount(ctx: Context)
      modifies this`count
      ensures count == RepairCount(ctx, old(count))
    {
      if !count.Dict? {
        return;
      }
      var r := count.value;
      if r.value.None? || r.value.value < 1 {
        count := NoSection;
        return;
      }
      if ctx.Literal(r.evidence.Render()) {
        return;
      }
      var repaired := FirstMatch(ctx.norm, ctx.message, ctx.cues.count(r.value.value));
      if repaired.Some? {
        count := Dict(r.(evidence := Text(repaired.value)));
      } else {
        count := NoSection;
      }
    }

    method SanitizeSections(ctx: Context)
      modifies this`count, this`objection, this`relation, this`readiness, this`prior, this`postPurchase
      ensures count == RepairCount(ctx, old(count))
      ensures objection == OnDict(old(objection), o => RepairObjection(ctx, o))
      ensures relation == OnDict(old(relation), r => RepairRelation(ctx, r))
      ensures readiness == OnDict(old(readiness), r => RepairReadiness(ctx, r))
      ensures prior == OnDict(old(prior), r => RepairPrior(ctx, r))
      ensures postPurchase == OnDict(old(postPurchase), r => RepairPostPurchase(ctx, r))
    {
      SanitizeCount(ctx);
      if objection.Dict? {
        SanitizeObjection(ctx);
      }
      if relation.Dict? {
        SanitizeRelation(ctx);
      }
      if readiness.Dict? {
        SanitizeReadiness(ctx);
      }
      if prior.Dict? {
        SanitizePrior(ctx);
      }
      if postPurchase.Dict? {
        SanitizePostPurchase(ctx);
      }
    }

    method SanitizeLists(ctx: Context)
      modifies this`problems, this`capabilities, this`actions, this`products
      ensures problems == OnList(old(problems), es => Repaired(x => RepairProblem(ctx, x), es))
      ensures capabilities ==
              OnList(old(capabilities), es => Repaired(x => RepairNarrowed(ctx, ctx.cues.capability, x), es))
      ensures actions == OnList(old(actions), es => Repaired(x => RepairNarrowed(ctx, ctx.cues.action, x), es))
      ensures products == OnList(old(products), es => RepairProducts(ctx, es))
    {
      if problems.List? {
        var kept := SanitizeBusinessProblems(ctx, problems.elements);
        problems := List(kept);
      }
      if capabilities.List? {
        var kept := SanitizeRequested(ctx, ctx.cues.capability, capabilities.elements);
        capabilities := List(kept);
      }
      if actions.List? {
        var kept := SanitizeRequested(ctx, ctx.cues.action, actions.elements);
        actions := List(kept);
      }
      if products.List? {
        var kept := SanitizeProductReferences(ctx, products.elements);
        products := List(kept);
      }
    }
  }

  method SanitizePayload(ctx: Context, payload: Payload) returns (cleaned: PayloadCopy)
    ensures fresh(cleaned)
    ensures cleaned.Value() == Sanitize(ctx, payload)
  {
    cleaned := new PayloadCopy(payload);
    cleaned.currentVersion := true;
    cleaned.SanitizeLists(ctx);
    cleaned.SanitizeSections(ctx);
  }

  lemma NarrowedListStable<T(!new)>(ctx: Context, cuesOf: T -> seq<string>, es: seq<RawElement<RawItem<T>>>)
    ensures var repair := x => RepairNarrowed(ctx, cuesOf, x);
            Repaired(repair, Repaired(repair, es)) == Repaired(repair, es)
  {
    var repair := x => RepairNarrowed(ctx, cuesOf, x);
    forall x: RawItem<T> | repair(x).Some? ensures repair(repair(x).value) == Some(repair(x).value) {
      RepairNarrowedStable(ctx, cuesOf, x);
    }
    RepairedAll(repair, y => repair(y) == Some(y), es);
    RepairedFixed(repair, Repaired(repair, es));
  }

  lemma ProblemListStable(ctx: Context, es: seq<RawElement<RawItem<Problem>>>)
    ensures var repair := x => RepairProblem(ctx, x);
            Repaired(repair, Repaired(repair, es)) == Repaired(repair, es)
  {
    var repair := x => RepairProblem(ctx, x);
    forall x: RawItem<Problem> | repair(x).Some? ensures repair(repair(x).value) == Some(repair(x).value) {
      RepairProblemStable(ctx, x);
    }
    RepairedAll(repair, y => repair(y) == Some(y), es);
    RepairedFixed(repair, Repaired(repair, es));
  }

  lemma SectionsStable(ctx: Context, p: Payload)
    ensures RepairCount(ctx, RepairCount(ctx, p.count)) == RepairCount(ctx, p.count)
    ensures p.objection.Dict? ==>
              var r := RepairObjection(ctx, p.objection.value); RepairObjection(ctx, r) == r
    ensures p.relation.Dict? ==>
              var r := RepairRelation(ctx, p.relation.value); RepairRelation(ctx, r) == r
    ensures p.readiness.Dict? ==>
              var r := RepairReadiness(ctx, p.readiness.value); RepairReadiness(ctx, r) == r
    ensures p.prior.Dict? ==>
              var r := RepairPrior(ctx, p.prior.value); RepairPrior(ctx, r) == r
    ensures p.postPurchase.Dict? ==>
              var r := RepairPostPurchase(ctx, p.postPurchase.value); RepairPostPurchase(ctx, r) == r
  {
  }

  /** Sanitising a sanitised payload changes nothing. */
  lemma SanitizeIdempotent(ctx: Context, p: Payload)
    ensures Sanitize(ctx, Sanitize(ctx, p)) == Sanitize(ctx, p)
  {
    if p.problems.List? { ProblemListStable(ctx, p.problems.elements); }
    if p.capabilities.List? { NarrowedListStable(ctx, ctx.cues.capability, p.capabilities.elements); }
    if p.actions.List? { NarrowedListStable(ctx, ctx.cues.action, p.actions.elements); }
    if p.products.List? { RepairProductsStable(ctx, p.products.elements); }
    SectionsStable(ctx, p);
  }
}
