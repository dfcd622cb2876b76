/** The last check on a generated reply: questions about what is already known are
    taken out, sentence by sentence (agent/memory.py `sanitize_response_memory`). */
module Replies {
  import opened Evidence
  import opened LeadState

  // ---------- the language of a reply ----------

  const ENDS: set<char> := {'.', '!', '?'}

  // The two sentences of the engine's own, cut into words. The "t" and the "n" of
  // the closing question stand apart: it contains each of them once.

  const CLOSING_1 := "¿Quieres que "
  const CLOSING_2 := "e explique "
  const CLOSING_3 := "el proceso "
  const CLOSING_4 := "para i"
  const CLOSING_5 := "iciar o "
  const CLOSING_6 := "prefieres "
  const CLOSING_7 := "ver el demo"
  const CLOSING_BODY := CLOSING_1 + "t" + CLOSING_2 + CLOSING_3 + CLOSING_4 + "n" + CLOSING_5 + CLOSING_6 + CLOSING_7
  const CLOSING := CLOSING_BODY + "?"

  const FALLBACK_1 := "Con lo que ya me "
  const FALLBACK_2 := "compartiste, "
  const FALLBACK_3 := "puedo avanzar "
  const FALLBACK_4 := "sin volver a "
  const FALLBACK_5 := "preguntarte "
  const FALLBACK_6 := "esos datos"
  const FALLBACK_BODY := FALLBACK_1 + FALLBACK_2 + FALLBACK_3 + FALLBACK_4 + FALLBACK_5 + FALLBACK_6
  const FALLBACK := FALLBACK_BODY + "."

  /** How a character is lowered and which characters are white space. */
  datatype Language = Language(lower: char -> string, space: char -> bool) {
    function Lower(s: string): string {
      if s == "" then "" else Lower(s[..|s| - 1]) + lower(s[|s| - 1])
    }

    /** A blank is space, the end of a sentence is not. */
    ghost predicate Spaced() {
      space(' ') && !space('.') && !space('!') && !space('?')
    }

    /** Each character is lowered to itself, but for a capital Q. */
    ghost predicate Familiar(s: string) {
      forall c :: c in s ==> lower(c) == [c] || lower(c) == "q"
    }

    /** Small letters and the marks the engine writes are lowered to themselves, its
        two capitals as usual; and its sentences do not begin with a space. */
    ghost predicate Usual() {
      && (forall c :: Ordinary(c) ==> lower(c) == [c]) && lower('Q') == "q" && lower('C') == "c"
      && !space('¿') && !space('C')
    }
  }

  predicate Ordinary(c: char) {
    'a' <= c <= 'z' || c == ' ' || c == ',' || c == '.' || c == '?' || c == '¿'
  }

  /** The phrases that give away a question. */
  function Patterns(key: QuestionKey): seq<string> {
    match key
    case BusinessTypeKey => ["qué tipo de negocio", "que tipo de negocio", "tipo de negocio tienes"]
    case MainChannelKey => ["por dónde te escriben", "por donde te escriben", "canal principal"]
    case PainOrGoalKey =>
      ["qué quieres mejorar", "que quieres mejorar", "qué parte de tu atención", "que parte de tu atencion"]
    case ActionRequirementKey =>
      ["solo debe responder", "también hacer acciones", "tambien hacer acciones", "agendar, cotizar o registrar"]
    case _ => []
  }

  predicate MentionsAny(patterns: seq<string>, text: string) {
    exists i | 0 <= i < |patterns| :: Infix(patterns[i], text)
  }

  /** `_response_asks_for_key` */
  predicate Asks(lang: Language, text: string, key: QuestionKey) {
    MentionsAny(Patterns(key), lang.Lower(text)) && '?' in lang.Lower(text)
  }

  // ---------- splitting and joining sentences ----------

  /** The first position from `i` on that follows the end of a sentence and is
      white space; the length of the text if there is none. */
  function BreakFrom(lang: Language, text: string, i: nat): (b: nat)
    requires 1 <= i <= |text|
    ensures i <= b <= |text|
    decreases |text| - i
  {
    if i == |text| || (text[i - 1] in ENDS && lang.space(text[i])) then i else BreakFrom(lang, text, i + 1)
  }

  function SkipSpace(lang: Language, text: string): (r: string)
    ensures |r| <= |text|
  {
    if text != "" && lang.space(text[0]) then SkipSpace(lang, text[1..]) else text
  }

  /** `re.split` at the white space after the end of a sentence. */
  function Split(lang: Language, text: string): seq<string>
    decreases |text|
  {
    if text == "" then [""]
    else
      var b := BreakFrom(lang, text, 1);
      if b == |text| then [text] else [text[..b]] + Split(lang, SkipSpace(lang, text[b..]))
  }

  /** `" ".join` */
  function Join(sentences: seq<string>): string {
    if sentences == [] then ""
    else if |sentences| == 1 then sentences[0]
    else sentences[0] + " " + Join(sentences[1..])
  }

  predicate Ended(s: string) { s != "" && s[|s| - 1] in ENDS }

  /** A piece no split can cut: it begins with no space and has no break inside. */
  predicate Sentence(lang: Language, s: string) {
    s != "" && !lang.space(s[0]) && !lang.space(s[|s| - 1]) && BreakFrom(lang, s, 1) == |s|
  }

  /** Sentences, all ended but perhaps the last. */
  predicate Prose(lang: Language, sentences: seq<string>) {
    && (forall i :: 0 <= i < |sentences| ==> Sentence(lang, sentences[i]))
    && (forall i :: 0 <= i < |sentences| - 1 ==> Ended(sentences[i]))
  }

  lemma {:induction false} BreakFromFacts(lang: Language, text: string, i: nat)
    requires 1 <= i <= |text|
    ensures var b := BreakFrom(lang, text, i);
            && (b < |text| ==> text[b - 1] in ENDS && lang.space(text[b]))
            && (forall k :: i <= k < b ==> !(text[k - 1] in ENDS && lang.space(text[k])))
    decreases |text| - i
  {
    if i < |text| && !(text[i - 1] in ENDS && lang.space(text[i])) {
      BreakFromFacts(lang, text, i + 1);
    }
  }

  lemma {:induction false} BreakFromIs(lang: Language, text: string, i: nat, b: nat)
    requires 1 <= i <= b <= |text|
    requires forall k :: i <= k < b ==> !(text[k - 1] in ENDS && lang.space(text[k]))
    requires b < |text| ==> text[b - 1] in ENDS && lang.space(text[b])
    ensures BreakFrom(lang, text, i) == b
    decreases b - i
  {
    if i < b {
      BreakFromIs(lang, text, i + 1, b);
    }
  }

  lemma {:induction false} SkipSpaceFacts(lang: Language, text: string)
    requires text != "" && !lang.space(text[|text| - 1])
    ensures var r := SkipSpace(lang, text);
            r != "" && !lang.space(r[0]) && r[|r| - 1] == text[|text| - 1]
  {
    if lang.space(text[0]) {
      SkipSpaceFacts(lang, text[1..]);
    }
  }

  /** A prefix up to the first break, or all of it, is a sentence. */
  lemma FirstPieceIsSentence(lang: Language, text: string, b: nat)
    requires lang.Spaced() && text != "" && !lang.space(text[0]) && !lang.space(text[|text| - 1])
    requires b == BreakFrom(lang, text, 1)
    ensures Sentence(lang, text[..b])
    ensures b < |text| ==> Ended(text[..b])
  {
    BreakFromFacts(lang, text, 1);
    var piece := text[..b];
    forall k | 1 <= k < b ensures !(piece[k - 1] in ENDS && lang.space(piece[k])) {
      assert piece[k - 1] == text[k - 1] && piece[k] == text[k];
    }
    BreakFromIs(lang, piece, 1, b);
  }

  /** Splitting a stripped text gives prose. */
  lemma {:induction false} SplitIsProse(lang: Language, text: string)
    requires lang.Spaced() && text != "" && !lang.space(text[0]) && !lang.space(text[|text| - 1])
    ensures Split(lang, text) != [] && Prose(lang, Split(lang, text))
    decreases |text|
  {
    var b := BreakFrom(lang, text, 1);
    FirstPieceIsSentence(lang, text, b);
    if b < |text| {
      SkipSpaceFacts(lang, text[b..]);
      SplitIsProse(lang, SkipSpace(lang, text[b..]));
    } else {
      assert text[..b] == text;
    }
  }

  lemma {:induction false} JoinStartsAs(lang: Language, sentences: seq<string>)
    requires sentences != [] && sentences[0] != ""
    ensures Join(sentences) != "" && Join(sentences)[0] == sentences[0][0]
  {
  }

  lemma BreakAfterFirst(lang: Language, first: string, rest: string)
    requires lang.Spaced() && Sentence(lang, first) && Ended(first)
    ensures BreakFrom(lang, first + " " + rest, 1) == |first|
  {
    var text := first + " " + rest;
    BreakFromFacts(lang, first, 1);
    forall k | 1 <= k < |first| ensures !(text[k - 1] in ENDS && lang.space(text[k])) {
      assert text[k - 1] == first[k - 1] && text[k] == first[k];
    }
    assert text[|first| - 1] == first[|first| - 1] && text[|first|] == ' ';
    BreakFromIs(lang, text, 1, |first|);
  }

  lemma SplitAtFirst(lang: Language, first: string, rest: string)
    requires lang.Spaced() && Sentence(lang, first) && Ended(first)
    requires rest != "" && !lang.space(rest[0])
    ensures Split(lang, first + " " + rest) == [first] + Split(lang, rest)
  {
    var text := first + " " + rest;
    BreakAfterFirst(lang, first, rest);
    var tail := text[|first|..];
    assert tail == [' '] + rest;
    assert tail[1..] == rest;
    assert SkipSpace(lang, tail) == SkipSpace(lang, rest) == rest;
    assert text[..|first|] == first;
  }

  /** Splitting undoes joining. */
  lemma {:induction false} SplitUndoesJoin(lang: Language, sentences: seq<string>)
    requires lang.Spaced() && sentences != [] && Prose(lang, sentences)
    ensures Split(lang, Join(sentences)) == sentences
  {
    var first := sentences[0];
    assert Sentence(lang, first);
    if |sentences| > 1 {
      var others := sentences[1..];
      assert Sentence(lang, others[0]) && Ended(first);
      JoinStartsAs(lang, others);
      SplitAtFirst(lang, first, Join(others));
      ProseTail(lang, sentences);
      SplitUndoesJoin(lang, others);
    }
  }

  lemma ProseTail(lang: Language, sentences: seq<string>)
    requires sentences != [] && Prose(lang, sentences)
    ensures Prose(lang, sentences[1..])
  {
  }

  // ---------- the correction ----------

  function StripTail(lang: Language, text: string): (r: string)
    ensures r <= text
  {
    if text != "" && lang.space(text[|text| - 1]) then StripTail(lang, text[..|text| - 1]) else text
  }

  function StripSpace(lang: Language, text: string): string {
    StripTail(lang, SkipSpace(lang, text))
  }

  predicate AsksAny(lang: Language, text: string, keys: set<QuestionKey>) {
    exists key :: key in keys && Asks(lang, text, key)
  }

  function Keep(lang: Language, sentences: seq<string>, violations: set<QuestionKey>): seq<string> {
    if sentences == [] then []
    else
      (if AsksAny(lang, sentences[0], violations) then [] else [sentences[0]])
      + Keep(lang, sentences[1..], violations)
  }

  function Violations(lang: Language, response: string, forbidden: set<QuestionKey>): set<QuestionKey> {
    set key | key in forbidden && Asks(lang, response, key)
  }

  function Kept(lang: Language, response: string, forbidden: set<QuestionKey>): seq<string> {
    Keep(lang, Split(lang, StripSpace(lang, response)), Violations(lang, response, forbidden))
  }

  function Punctuated(s: string): string {
    if s != "" && !Ended(s) then s + "." else s
  }

  /** `sanitize_response_memory`: the reply, and whether it was corrected. */
  function Sanitize(lang: Language, response: string, forbidden: set<QuestionKey>): (string, bool) {
    if Violations(lang, response, forbidden) == {} then (response, false)
    else
      var safe := StripSpace(lang, Join(Kept(lang, response, forbidden)));
      var body := StripTail(lang, if safe == "" then FALLBACK else safe);
      (Punctuated(body) + " " + CLOSING, true)
  }

  // ---------- joining, lowering, stripping ----------

  lemma {:induction false} JoinSnoc(sentences: seq<string>, last: string)
    requires sentences != []
    ensures Join(sentences + [last]) == Join(sentences) + " " + last
  {
    if |sentences| > 1 {
      assert (sentences + [last])[1..] == sentences[1..] + [last];
      JoinSnoc(sentences[1..], last);
      var first, rest := sentences[0], Join(sentences[1..]);
      assert first + " " + (rest + " " + last) == first + " " + rest + " " + last;
    } else {
      assert (sentences + [last])[1..] == [last];
    }
  }

  lemma {:induction false} LowerConcat(lang: Language, a: string, b: string)
    ensures lang.Lower(a + b) == lang.Lower(a) + lang.Lower(b)
  {
    if b == "" {
      assert a + b == a;
    } else {
      var n := |b| - 1;
      assert (a + b)[..|a| + n] == a + b[..n];
      LowerConcat(lang, a, b[..n]);
    }
  }

  lemma InfixIsSlice(p: string, t: string) returns (before: string, after: string)
    requires Infix(p, t)
    ensures t == before + p + after
  {
    var k :| 0 <= k <= |t| && OccursAt(p, t, k);
    before, after := t[..k], t[k + |p|..];
  }

  lemma MiddleIsInfix(a: string, p: string, b: string)
    ensures Infix(p, a + p + b)
  {
    var t := a + p + b;
    assert t[|a|..|a| + |p|] == p;
    assert OccursAt(p, t, |a|);
  }

  /** Lowering keeps what occurs in what. */
  lemma LowerMonotone(lang: Language, p: string, t: string)
    requires Infix(p, t)
    ensures Infix(lang.Lower(p), lang.Lower(t))
  {
    var before, after := InfixIsSlice(p, t);
    LowerConcat(lang, before + p, after);
    LowerConcat(lang, before, p);
    MiddleIsInfix(lang.Lower(before), lang.Lower(p), lang.Lower(after));
  }

  lemma {:induction false} SkipSpaceIsInfix(lang: Language, text: string)
    ensures Infix(SkipSpace(lang, text), text)
  {
    if text != "" && lang.space(text[0]) {
      SkipSpaceIsInfix(lang, text[1..]);
      MiddleIsInfix([text[0]], text[1..], "");
      assert [text[0]] + text[1..] + "" == text;
      InfixTransitive(SkipSpace(lang, text), text[1..], text);
    } else {
      InfixReflexive(text);
    }
  }

  lemma PrefixIsInfix(p: string, t: string)
    requires p <= t
    ensures Infix(p, t)
  {
    MiddleIsInfix("", p, t[|p|..]);
    assert "" + p + t[|p|..] == t;
  }

  lemma SuffixIsInfix(t: string, b: nat)
    requires b <= |t|
    ensures Infix(t[b..], t)
  {
    MiddleIsInfix(t[..b], t[b..], "");
    assert t[..b] + t[b..] + "" == t;
  }

  /** Every piece of a split occurs in the text. */
  lemma {:induction false} PiecesOccur(lang: Language, text: string, piece: string)
    requires piece in Split(lang, text)
    ensures Infix(piece, text)
    decreases |text|
  {
    if text == "" || BreakFrom(lang, text, 1) == |text| {
      InfixReflexive(text);
    } else {
      var b := BreakFrom(lang, text, 1);
      var rest := SkipSpace(lang, text[b..]);
      if piece == text[..b] {
        PrefixIsInfix(piece, text);
      } else {
        PiecesOccur(lang, rest, piece);
        SkipSpaceIsInfix(lang, text[b..]);
        SuffixIsInfix(text, b);
        InfixTransitive(rest, text[b..], text);
        InfixTransitive(piece, rest, text);
      }
    }
  }

  lemma {:induction false} StripTailFacts(lang: Language, text: string)
    ensures var r := StripTail(lang, text); r != "" ==> !lang.space(r[|r| - 1])
    ensures text != "" && !lang.space(text[0]) ==> StripTail(lang, text) != ""
  {
    if text != "" && lang.space(text[|text| - 1]) {
      StripTailFacts(lang, text[..|text| - 1]);
    }
  }

  lemma {:induction false} SkipSpaceStarts(lang: Language, text: string)
    ensures var r := SkipSpace(lang, text); r != "" ==> !lang.space(r[0])
  {
    if text != "" && lang.space(text[0]) {
      SkipSpaceStarts(lang, text[1..]);
    }
  }

  lemma StrippedShape(lang: Language, text: string)
    ensures var r := StripSpace(lang, text);
            && (r != "" ==> !lang.space(r[0]) && !lang.space(r[|r| - 1]))
            && Infix(r, text)
  {
    var skipped := SkipSpace(lang, text);
    SkipSpaceStarts(lang, text);
    StripTailFacts(lang, skipped);
    SkipSpaceIsInfix(lang, text);
    PrefixIsInfix(StripTail(lang, skipped), skipped);
    InfixTransitive(StripTail(lang, skipped), skipped, text);
  }

  lemma StripNothing(lang: Language, text: string)
    requires text != "" && !lang.space(text[0]) && !lang.space(text[|text| - 1])
    ensures StripSpace(lang, text) == text == StripTail(lang, text)
  {
  }

  lemma {:induction false} JoinEndsAs(lang: Language, sentences: seq<string>)
    requires sentences != [] && Prose(lang, sentences)
    ensures var t := Join(sentences);
            t != "" && !lang.space(t[0]) && t[|t| - 1] == sentences[|sentences| - 1][|sentences[|sentences| - 1]| - 1]
  {
    assert Sentence(lang, sentences[0]);
    if |sentences| > 1 {
      ProseTail(lang, sentences);
      JoinEndsAs(lang, sentences[1..]);
    }
  }

  // ---------- what is kept ----------

  /** Exactly the sentences that ask for a violated key are dropped. */
  lemma {:induction false} KeepFacts(lang: Language, sentences: seq<string>, violations: set<QuestionKey>)
    ensures forall s :: s in Keep(lang, sentences, violations) <==> s in sentences && !AsksAny(lang, s, violations)
  {
    if sentences != [] {
      KeepFacts(lang, sentences[1..], violations);
    }
  }

  lemma {:induction false} KeepIsProse(lang: Language, sentences: seq<string>, violations: set<QuestionKey>)
    requires Prose(lang, sentences)
    ensures Prose(lang, Keep(lang, sentences, violations))
  {
    if sentences != [] {
      ProseTail(lang, sentences);
      KeepIsProse(lang, sentences[1..], violations);
      var rest := Keep(lang, sentences[1..], violations);
      assert Sentence(lang, sentences[0]);
      assert |sentences| > 1 ==> Ended(sentences[0]);
    }
  }

  /** The kept sentences, the last one punctuated, or the fallback when none is. */
  function Body(kept: seq<string>): (r: seq<string>)
    ensures r != []
  {
    if Join(kept) == "" then [FALLBACK]
    else if kept == [] then [FALLBACK]
    else kept[..|kept| - 1] + [Punctuated(kept[|kept| - 1])]
  }

  lemma SentenceOf(lang: Language, body: string, end: char)
    requires lang.Spaced() && body != "" && !lang.space(body[0]) && end in ENDS
    requires NoEnds(body)
    ensures Sentence(lang, body + [end]) && Ended(body + [end])
  {
    var s := body + [end];
    forall k | 1 <= k < |s| ensures !(s[k - 1] in ENDS && lang.space(s[k])) {
      assert s[k - 1] == body[k - 1] && body[k - 1] in body;
    }
    BreakFromIs(lang, s, 1, |s|);
  }

  predicate Lacks(s: string, c: char) { c !in s }

  /** The characters that tell the closing question from every other question. */
  ghost predicate Plain(s: string) {
    && Lacks(s, '.') && Lacks(s, '!') && Lacks(s, '?')
    && Lacks(s, 'é') && Lacks(s, 'g') && Lacks(s, 'b') && Lacks(s, 'j')
  }

  ghost predicate Bare(s: string) { Plain(s) && Lacks(s, 't') && Lacks(s, 'n') }

  /** Ordinary characters, and perhaps one capital. */
  ghost predicate Spelled(s: string, capital: char) {
    forall c :: c in s ==> Ordinary(c) || c == capital
  }

  lemma Words1() ensures Bare(CLOSING_1) && Spelled(CLOSING_1, 'Q') {}
  lemma Words2() ensures Bare(CLOSING_2) && Spelled(CLOSING_2, 'Q') {}
  lemma Words3() ensures Bare(CLOSING_3) && Spelled(CLOSING_3, 'Q') {}
  lemma Words4() ensures Bare(CLOSING_4) && Spelled(CLOSING_4, 'Q') {}
  lemma Words5() ensures Bare(CLOSING_5) && Spelled(CLOSING_5, 'Q') {}
  lemma Words6() ensures Bare(CLOSING_6) && Spelled(CLOSING_6, 'Q') {}
  lemma Words7() ensures Bare(CLOSING_7) && Spelled(CLOSING_7, 'Q') {}

  lemma ClosingWords()
    ensures Bare(CLOSING_1) && Bare(CLOSING_2) && Bare(CLOSING_3) && Bare(CLOSING_4)
    ensures Bare(CLOSING_5) && Bare(CLOSING_6) && Bare(CLOSING_7)
  {
    Words1();
    Words2();
    Words3();
    Words4();
    Words5();
    Words6();
    Words7();
  }

  lemma SpelledConcat(a: string, b: string, capital: char)
    requires Spelled(a, capital) && Spelled(b, capital)
    ensures Spelled(a + b, capital)
  {
  }

  lemma ClosingIsSpelled()
    ensures Spelled(CLOSING, 'Q')
  {
    Words1();
    Words2();
    Words3();
    Words4();
    Words5();
    Words6();
    Words7();
    var two := CLOSING_1 + "t" + CLOSING_2;
    var four := two + CLOSING_3 + CLOSING_4;
    var six := four + "n" + CLOSING_5 + CLOSING_6;
    SpelledConcat(CLOSING_1 + "t", CLOSING_2, 'Q');
    SpelledConcat(two, CLOSING_3, 'Q');
    SpelledConcat(two + CLOSING_3, CLOSING_4, 'Q');
    SpelledConcat(four + "n", CLOSING_5, 'Q');
    SpelledConcat(four + "n" + CLOSING_5, CLOSING_6, 'Q');
    SpelledConcat(six, CLOSING_7, 'Q');
  }

  ghost predicate NoEnds(s: string) { Lacks(s, '.') && Lacks(s, '!') && Lacks(s, '?') }

  /** No ends of sentences, ordinary characters and a capital C. */
  ghost predicate Mute(s: string) { NoEnds(s) && Spelled(s, 'C') }

  lemma FallbackWords1() ensures Mute(FALLBACK_1) {}
  lemma FallbackWords2() ensures Mute(FALLBACK_2) {}
  lemma FallbackWords3() ensures Mute(FALLBACK_3) {}
  lemma FallbackWords4() ensures Mute(FALLBACK_4) {}
  lemma FallbackWords5() ensures Mute(FALLBACK_5) {}
  lemma FallbackWords6() ensures Mute(FALLBACK_6) {}

  lemma MuteConcat(a: string, b: string)
    requires Mute(a) && Mute(b)
    ensures Mute(a + b)
  {
  }

  lemma FallbackIsMute()
    ensures Mute(FALLBACK_BODY)
  {
    FallbackWords1();
    FallbackWords2();
    FallbackWords3();
    FallbackWords4();
    FallbackWords5();
    FallbackWords6();
    var three := FALLBACK_1 + FALLBACK_2 + FALLBACK_3;
    MuteConcat(FALLBACK_1, FALLBACK_2);
    MuteConcat(FALLBACK_1 + FALLBACK_2, FALLBACK_3);
    MuteConcat(three, FALLBACK_4);
    MuteConcat(three + FALLBACK_4, FALLBACK_5);
    MuteConcat(three + FALLBACK_4 + FALLBACK_5, FALLBACK_6);
  }

  lemma OwnSentence(lang: Language, body: string, end: char, s: string)
    requires lang.Spaced() && body != "" && !lang.space(body[0]) && end in ENDS && s == body + [end]
    requires NoEnds(body)
    ensures Sentence(lang, s) && Ended(s)
  {
    SentenceOf(lang, body, end);
  }

  lemma PunctuatedIsSentence(lang: Language, s: string)
    requires lang.Spaced() && Sentence(lang, s)
    ensures Sentence(lang, Punctuated(s)) && Ended(Punctuated(s))
  {
    if !Ended(s) {
      var t := s + ".";
      BreakFromFacts(lang, s, 1);
      forall k | 1 <= k < |t| ensures !(t[k - 1] in ENDS && lang.space(t[k])) {
        assert t[k - 1] == s[k - 1];
        assert k < |s| ==> t[k] == s[k];
      }
      BreakFromIs(lang, t, 1, |t|);
    }
  }

  lemma ClosingHasNoEnds()
    ensures NoEnds(CLOSING_BODY) && CLOSING_BODY != "" && CLOSING_BODY[0] == '¿'
  {
    ClosingWords();
  }

  lemma ClosingIsSentence(lang: Language)
    requires lang.Spaced() && !lang.space('¿')
    ensures Sentence(lang, CLOSING)
  {
    ClosingHasNoEnds();
    OwnSentence(lang, CLOSING_BODY, '?', CLOSING);
  }

  lemma FallbackHasNoEnds()
    ensures NoEnds(FALLBACK_BODY) && FALLBACK_BODY != "" && FALLBACK_BODY[0] == 'C'
  {
    FallbackIsMute();
  }

  lemma FallbackIsSentence(lang: Language)
    requires lang.Spaced() && !lang.space('C')
    ensures Sentence(lang, FALLBACK) && Ended(FALLBACK)
  {
    FallbackHasNoEnds();
    OwnSentence(lang, FALLBACK_BODY, '.', FALLBACK);
  }

  /** The engine's own sentences are sentences. */
  lemma OwnSentences(lang: Language)
    requires lang.Spaced() && lang.Usual()
    ensures Sentence(lang, CLOSING) && Sentence(lang, FALLBACK) && Ended(FALLBACK)
  {
    ClosingIsSentence(lang);
    FallbackIsSentence(lang);
  }

  // ---------- the closing question asks nothing that is known ----------

  lemma {:induction false} LowerLacks(lang: Language, s: string, d: char)
    requires forall c :: c in s ==> d !in lang.lower(c)
    ensures Lacks(lang.Lower(s), d)
  {
    if s != "" {
      LowerLacks(lang, s[..|s| - 1], d);
    }
  }

  lemma OwnLowerLacks(lang: Language, s: string, d: char)
    requires lang.Familiar(s) && Lacks(s, d) && d != 'q'
    ensures Lacks(lang.Lower(s), d)
  {
    LowerLacks(lang, s, d);
  }

  /** The characters of a phrase are found in the text, in their order. */
  lemma OccurrenceCharacters(p: string, t: string, i: nat, j: nat) returns (x: nat, y: nat)
    requires Infix(p, t) && i <= j < |p|
    ensures x <= y < |t| && y - x == j - i && t[x] == p[i] && t[y] == p[j]
  {
    var k :| 0 <= k <= |t| && OccursAt(p, t, k);
    x, y := k + i, k + j;
    assert t[x] == t[k..k + |p|][i] && t[y] == t[k..k + |p|][j];
  }

  /** A phrase with a character the text lacks does not occur in it. */
  lemma AbsentCharacter(p: string, t: string, i: nat)
    requires i < |p| && Lacks(t, p[i])
    ensures !Infix(p, t)
  {
    if Infix(p, t) {
      var x, y := OccurrenceCharacters(p, t, i, i);
    }
  }

  lemma OnlyThere(a: string, d: char, b: string)
    requires Lacks(a, d) && Lacks(b, d)
    ensures var t := a + [d] + b; forall x :: 0 <= x < |t| && t[x] == d ==> x == |a|
  {
    var t := a + [d] + b;
    forall x | 0 <= x < |t| ensures t[x] == d ==> x == |a| {
      assert x < |a| ==> t[x] == a[x] && a[x] in a;
      assert x > |a| ==> t[x] == b[x - |a| - 1] && b[x - |a| - 1] in b;
    }
  }

  /** Nor does one that has twice a character the text has once. */
  lemma OnceOnlyCharacter(p: string, a: string, d: char, b: string, i: nat, j: nat)
    requires i < j < |p| && p[i] == d && p[j] == d && Lacks(a, d) && Lacks(b, d)
    ensures !Infix(p, a + [d] + b)
  {
    OnlyThere(a, d, b);
    if Infix(p, a + [d] + b) {
      var x, y := OccurrenceCharacters(p, a + [d] + b, i, j);
    }
  }

  /** The lowered closing question: its parts around the one "t" and the one "n". */
  ghost predicate ClosingLowered(t: string, head: string, middle: string, tail: string) {
    t == head + "t" + middle + "n" + tail && Bare'(head) && Bare'(middle) && Bare'(tail)
  }

  ghost predicate Bare'(s: string) {
    Lacks(s, 'é') && Lacks(s, 'g') && Lacks(s, 'b') && Lacks(s, 'j') && Lacks(s, 't') && Lacks(s, 'n')
  }

  lemma OwnLowerBare(lang: Language, s: string)
    requires lang.Familiar(s) && Bare'(s)
    ensures Bare'(lang.Lower(s))
  {
    OwnLowerLacks(lang, s, 'é');
    OwnLowerLacks(lang, s, 'g');
    OwnLowerLacks(lang, s, 'b');
    OwnLowerLacks(lang, s, 'j');
    OwnLowerLacks(lang, s, 't');
    OwnLowerLacks(lang, s, 'n');
  }

  lemma LowerOne(lang: Language, c: char)
    requires lang.lower(c) == [c]
    ensures lang.Lower([c]) == [c]
  {
    assert [c][..0] == "";
  }

  lemma ClosingParts(head: string, middle: string, tail: string)
    requires head == CLOSING_1 && middle == CLOSING_2 + CLOSING_3 + CLOSING_4
    requires tail == CLOSING_5 + CLOSING_6 + CLOSING_7 + "?"
    ensures CLOSING == head + "t" + middle + "n" + tail
    ensures Bare'(head) && Bare'(middle) && Bare'(tail)
  {
    ClosingWords();
    assert CLOSING == head + "t" + (CLOSING_2 + CLOSING_3 + CLOSING_4) + "n"
                      + (CLOSING_5 + CLOSING_6 + CLOSING_7 + "?");
  }

  lemma LowerSum(lang: Language, head: string, middle: string, tail: string)
    requires lang.lower('t') == "t" && lang.lower('n') == "n"
    ensures lang.Lower(head + "t" + middle + "n" + tail) ==
            lang.Lower(head) + "t" + lang.Lower(middle) + "n" + lang.Lower(tail)
  {
    LowerConcat(lang, head + "t" + middle + "n", tail);
    LowerConcat(lang, head + "t" + middle, "n");
    LowerConcat(lang, head + "t", middle);
    LowerConcat(lang, head, "t");
    LowerOne(lang, 't');
    LowerOne(lang, 'n');
  }

  lemma FamiliarParts(lang: Language, head: string, middle: string, tail: string)
    requires lang.Familiar(head + "t" + middle + "n" + tail)
    ensures lang.Familiar(head) && lang.Familiar(middle) && lang.Familiar(tail)
  {
    var text := head + "t" + middle + "n" + tail;
    forall c | c in head || c in middle || c in tail ensures c in text {
    }
  }

  lemma LowerParts(lang: Language, text: string, head: string, middle: string, tail: string)
    requires lang.Familiar(text) && lang.lower('t') == "t" && lang.lower('n') == "n"
    requires text == head + "t" + middle + "n" + tail
    requires Bare'(head) && Bare'(middle) && Bare'(tail)
    ensures ClosingLowered(lang.Lower(text), lang.Lower(head), lang.Lower(middle), lang.Lower(tail))
  {
    LowerSum(lang, head, middle, tail);
    FamiliarParts(lang, head, middle, tail);
    OwnLowerBare(lang, head);
    OwnLowerBare(lang, middle);
    OwnLowerBare(lang, tail);
  }

  lemma NoBusinessPattern(t: string)
    requires Lacks(t, 'é') && Lacks(t, 'g')
    ensures !MentionsAny(Patterns(BusinessTypeKey), t)
  {
    AbsentCharacter("qué tipo de negocio", t, 2);
    AbsentCharacter("que tipo de negocio", t, 14);
    AbsentCharacter("tipo de negocio tienes", t, 10);
  }

  lemma NoChannelPattern(t: string, before: string, after: string)
    requires Lacks(t, 'b') && t == before + ['n'] + after && Lacks(before, 'n') && Lacks(after, 'n')
    ensures !MentionsAny(Patterns(MainChannelKey), t)
  {
    AbsentCharacter("por dónde te escriben", t, 18);
    AbsentCharacter("por donde te escriben", t, 18);
    OnceOnlyCharacter("canal principal", before, 'n', after, 2, 9);
  }

  lemma NoPainPattern(t: string, before: string, after: string)
    requires Lacks(t, 'é') && Lacks(t, 'j')
    requires t == before + ['t'] + after && Lacks(before, 't') && Lacks(after, 't')
    ensures !MentionsAny(Patterns(PainOrGoalKey), t)
  {
    AbsentCharacter("qué quieres mejorar", t, 2);
    AbsentCharacter("que quieres mejorar", t, 14);
    AbsentCharacter("qué parte de tu atención", t, 2);
    OnceOnlyCharacter("que parte de tu atencion", before, 't', after, 7, 13);
  }

  lemma NoActionPattern(t: string)
    requires Lacks(t, 'b') && Lacks(t, 'g')
    ensures !MentionsAny(Patterns(ActionRequirementKey), t)
  {
    AbsentCharacter("solo debe responder", t, 7);
    AbsentCharacter("también hacer acciones", t, 3);
    AbsentCharacter("tambien hacer acciones", t, 3);
    AbsentCharacter("agendar, cotizar o registrar", t, 1);
  }

  lemma NoPatternInClosing(t: string, head: string, middle: string, tail: string, key: QuestionKey)
    requires ClosingLowered(t, head, middle, tail)
    ensures !MentionsAny(Patterns(key), t)
  {
    assert Lacks(t, 'é') && Lacks(t, 'g') && Lacks(t, 'b') && Lacks(t, 'j');
    NoBusinessPattern(t);
    assert t == (head + "t" + middle) + ['n'] + tail;
    NoChannelPattern(t, head + "t" + middle, tail);
    assert t == head + ['t'] + (middle + "n" + tail);
    NoPainPattern(t, head, middle + "n" + tail);
    NoActionPattern(t);
  }

  lemma SpelledIsFamiliar(lang: Language, s: string)
    requires lang.Usual() && Spelled(s, 'Q')
    ensures lang.Familiar(s)
  {
  }

  lemma ClosingAsksNothing(lang: Language, key: QuestionKey)
    requires lang.Usual()
    ensures !Asks(lang, CLOSING, key)
  {
    var head, middle, tail := CLOSING_1, CLOSING_2 + CLOSING_3 + CLOSING_4, CLOSING_5 + CLOSING_6 + CLOSING_7 + "?";
    ClosingParts(head, middle, tail);
    ClosingIsSpelled();
    SpelledIsFamiliar(lang, CLOSING);
    LowerParts(lang, CLOSING, head, middle, tail);
    NoPatternInClosing(lang.Lower(CLOSING), lang.Lower(head), lang.Lower(middle), lang.Lower(tail), key);
  }

  lemma MuteStaysMute(lang: Language, s: string)
    requires lang.Usual() && Mute(s)
    ensures forall c :: c in s + "." ==> '?' !in lang.lower(c)
  {
    forall c | c in s + "." ensures '?' !in lang.lower(c) {
      assert c in s || c == '.';
    }
  }

  lemma FallbackAsksNothing(lang: Language, key: QuestionKey)
    requires lang.Usual()
    ensures !Asks(lang, FALLBACK, key)
  {
    FallbackIsMute();
    MuteStaysMute(lang, FALLBACK_BODY);
    LowerLacks(lang, FALLBACK, '?');
  }

  // ---------- corrected replies are clean ----------

  /** What a sentence of a text mentions, the text mentions. */
  lemma MentionsSpread(lang: Language, sentence: string, text: string, key: QuestionKey)
    requires Infix(sentence, text) && MentionsAny(Patterns(key), lang.Lower(sentence))
    ensures MentionsAny(Patterns(key), lang.Lower(text))
  {
    var i :| 0 <= i < |Patterns(key)| && Infix(Patterns(key)[i], lang.Lower(sentence));
    LowerMonotone(lang, sentence, text);
    InfixTransitive(Patterns(key)[i], lang.Lower(sentence), lang.Lower(text));
  }

  lemma KeptAskNothing(lang: Language, response: string, forbidden: set<QuestionKey>, sentence: string,
                       key: QuestionKey)
    requires Violations(lang, response, forbidden) != {}
    requires sentence in Kept(lang, response, forbidden) && key in forbidden
    ensures !Asks(lang, sentence, key)
  {
    var violations := Violations(lang, response, forbidden);
    var text := StripSpace(lang, response);
    KeepFacts(lang, Split(lang, text), violations);
    if key !in violations {
      var other :| other in violations;
      assert '?' in lang.Lower(response);
      if Asks(lang, sentence, key) {
        PiecesOccur(lang, text, sentence);
        StrippedShape(lang, response);
        InfixTransitive(sentence, text, response);
        MentionsSpread(lang, sentence, response, key);
      }
    }
  }

  lemma StopAddsNothing(p: string, s: string)
    requires Infix(p, s + ".") && p != "" && p[|p| - 1] != '.'
    ensures Infix(p, s)
  {
    var t := s + ".";
    var k :| 0 <= k <= |t| && OccursAt(p, t, k);
    assert t[k + |p| - 1] == t[k..k + |p|][|p| - 1] == p[|p| - 1];
    assert k + |p| <= |s|;
    assert s[k..k + |p|] == t[k..k + |p|];
    assert OccursAt(p, s, k);
  }

  lemma PatternsHaveNoStop(key: QuestionKey, i: nat)
    requires i < |Patterns(key)|
    ensures var p := Patterns(key)[i]; p != "" && p[|p| - 1] != '.'
  {
  }

  lemma PunctuationAsksNothing(lang: Language, s: string, key: QuestionKey)
    requires lang.lower('.') == "." && !Asks(lang, s, key)
    ensures !Asks(lang, Punctuated(s), key)
  {
    if Asks(lang, Punctuated(s), key) && Punctuated(s) != s {
      LowerConcat(lang, s, ".");
      LowerOne(lang, '.');
      var i :| 0 <= i < |Patterns(key)| && Infix(Patterns(key)[i], lang.Lower(s + "."));
      PatternsHaveNoStop(key, i);
      StopAddsNothing(Patterns(key)[i], lang.Lower(s));
    }
  }

  lemma SplitEmptyOrProse(lang: Language, response: string)
    requires lang.Spaced()
    ensures Split(lang, StripSpace(lang, response)) == [""] || Prose(lang, Split(lang, StripSpace(lang, response)))
  {
    StrippedShape(lang, response);
    if StripSpace(lang, response) != "" {
      SplitIsProse(lang, StripSpace(lang, response));
    }
  }

  lemma KeptIsProseOrEmpty(lang: Language, response: string, forbidden: set<QuestionKey>)
    requires lang.Spaced()
    ensures var kept := Kept(lang, response, forbidden);
            if Join(kept) == "" then true else kept != [] && Prose(lang, kept)
  {
    var pieces, violations := Split(lang, StripSpace(lang, response)), Violations(lang, response, forbidden);
    SplitEmptyOrProse(lang, response);
    if pieces == [""] {
      assert pieces[1..] == [];
      assert Keep(lang, pieces, violations) == [] || Keep(lang, pieces, violations) == [""];
    } else {
      KeepIsProse(lang, pieces, violations);
    }
  }

  lemma KeptJoin(lang: Language, kept: seq<string>, closing: string)
    requires kept != [] && Prose(lang, kept)
    ensures var text := Join(kept);
            StripTail(lang, StripSpace(lang, text)) == text
            && Punctuated(text) + " " + closing == Join(kept[..|kept| - 1] + [Punctuated(kept[|kept| - 1])] + [closing])
  {
    JoinEndsAs(lang, kept);
    var n := |kept| - 1;
    assert Sentence(lang, kept[n]);
    StripNothing(lang, Join(kept));
    PunctuatedJoin(kept);
    JoinSnoc(kept[..n] + [Punctuated(kept[n])], closing);
  }

  lemma FallbackJoin(lang: Language, fallback: string, closing: string)
    requires Sentence(lang, fallback) && Ended(fallback)
    ensures StripTail(lang, fallback) == fallback
    ensures Punctuated(fallback) + " " + closing == Join([fallback] + [closing])
  {
    StripNothing(lang, fallback);
    JoinSnoc([fallback], closing);
  }

  /** What the correction writes is the join of its body and the closing question. */
  lemma CorrectionIsJoin(lang: Language, kept: seq<string>)
    requires lang.Spaced() && lang.Usual()
    requires Join(kept) != "" ==> kept != [] && Prose(lang, kept)
    ensures var safe := StripSpace(lang, Join(kept));
            var body := StripTail(lang, if safe == "" then FALLBACK else safe);
            Punctuated(body) + " " + CLOSING == Join(Body(kept) + [CLOSING])
  {
    if Join(kept) == "" {
      OwnSentences(lang);
      FallbackJoin(lang, FALLBACK, CLOSING);
    } else {
      JoinEndsAs(lang, kept);
      StripNothing(lang, Join(kept));
      KeptJoin(lang, kept, CLOSING);
    }
  }

  lemma {:induction false} PunctuatedJoin(kept: seq<string>)
    requires kept != [] && kept[|kept| - 1] != ""
    ensures Punctuated(Join(kept)) == Join(kept[..|kept| - 1] + [Punctuated(kept[|kept| - 1])])
  {
    var n := |kept| - 1;
    if n > 0 {
      JoinSnoc(kept[..n], kept[n]);
      JoinSnoc(kept[..n], Punctuated(kept[n]));
      assert kept == kept[..n] + [kept[n]];
      var before := Join(kept[..n]) + " ";
      assert Punctuated(before + kept[n]) == before + Punctuated(kept[n]);
    } else {
      assert kept == [kept[0]];
      assert kept[..0] + [Punctuated(kept[0])] == [Punctuated(kept[0])];
    }
  }

  lemma ProseSnoc(lang: Language, sentences: seq<string>, last: string)
    requires Prose(lang, sentences) && Sentence(lang, last)
    requires sentences != [] ==> Ended(sentences[|sentences| - 1])
    ensures Prose(lang, sentences + [last])
  {
  }

  lemma BodyWith(lang: Language, kept: seq<string>, fallback: string, closing: string)
    requires lang.Spaced() && Sentence(lang, fallback) && Ended(fallback) && Sentence(lang, closing)
    requires kept != [] ==> Prose(lang, kept)
    ensures Prose(lang, [fallback] + [closing])
    ensures kept != [] ==> Prose(lang, kept[..|kept| - 1] + [Punctuated(kept[|kept| - 1])] + [closing])
  {
    ProseSnoc(lang, [fallback], closing);
    if kept != [] {
      var n := |kept| - 1;
      assert Sentence(lang, kept[n]);
      PunctuatedIsSentence(lang, kept[n]);
      ProseSnoc(lang, kept[..n], Punctuated(kept[n]));
      ProseSnoc(lang, kept[..n] + [Punctuated(kept[n])], closing);
    }
  }

  lemma BodyIsProse(lang: Language, kept: seq<string>)
    requires lang.Spaced() && lang.Usual()
    requires Join(kept) != "" ==> kept != [] && Prose(lang, kept)
    ensures Prose(lang, Body(kept) + [CLOSING])
  {
    OwnSentences(lang);
    BodyWith(lang, if Join(kept) == "" then [] else kept, FALLBACK, CLOSING);
  }

  /** Whenever a reply is corrected, cutting the result into sentences gives back
      exactly the kept sentences, the last one punctuated, or the fallback when
      none was kept, followed by the closing question. */
  lemma CorrectedReplyRoundTrip(lang: Language, response: string, forbidden: set<QuestionKey>)
    requires lang.Spaced() && lang.Usual() && Sanitize(lang, response, forbidden).1
    ensures var kept := Kept(lang, response, forbidden);
            Split(lang, Sanitize(lang, response, forbidden).0) == Body(kept) + [CLOSING]
  {
    var kept := Kept(lang, response, forbidden);
    KeptIsProseOrEmpty(lang, response, forbidden);
    CorrectionIsJoin(lang, kept);
    BodyIsProse(lang, kept);
    SplitUndoesJoin(lang, Body(kept) + [CLOSING]);
  }

  lemma LastAsksNothing(lang: Language, response: string, forbidden: set<QuestionKey>, kept: seq<string>,
                        sentence: string, key: QuestionKey)
    requires lang.lower('.') == "." && Violations(lang, response, forbidden) != {} && key in forbidden
    requires kept == Kept(lang, response, forbidden) && kept != []
    requires sentence in kept[..|kept| - 1] + [Punctuated(kept[|kept| - 1])]
    ensures !Asks(lang, sentence, key)
  {
    var n := |kept| - 1;
    if sentence in kept[..n] {
      KeptAskNothing(lang, response, forbidden, sentence, key);
    } else {
      KeptAskNothing(lang, response, forbidden, kept[n], key);
      PunctuationAsksNothing(lang, kept[n], key);
    }
  }

  lemma BodyAsksNothing(lang: Language, response: string, forbidden: set<QuestionKey>, kept: seq<string>,
                        sentence: string, key: QuestionKey)
    requires lang.lower('.') == "." && Violations(lang, response, forbidden) != {} && key in forbidden
    requires kept == Kept(lang, response, forbidden) && sentence in Body(kept)
    ensures !Asks(lang, sentence, key) || sentence == FALLBACK
  {
    if Join(kept) != "" && kept != [] {
      LastAsksNothing(lang, response, forbidden, kept, sentence, key);
    }
  }

  /** And no sentence of a corrected reply asks for anything that is known. */
  lemma CorrectedReplyAsksNothingKnown(lang: Language, response: string, forbidden: set<QuestionKey>, key: QuestionKey)
    requires lang.Spaced() && lang.Usual() && Sanitize(lang, response, forbidden).1 && key in forbidden
    ensures forall sentence :: sentence in Split(lang, Sanitize(lang, response, forbidden).0) ==>
              !Asks(lang, sentence, key)
  {
    CorrectedReplyRoundTrip(lang, response, forbidden);
    var body := Body(Kept(lang, response, forbidden));
    forall sentence | sentence in body + [CLOSING] ensures !Asks(lang, sentence, key) {
      if sentence == CLOSING {
        ClosingAsksNothing(lang, key);
      } else if sentence == FALLBACK {
        FallbackAsksNothing(lang, key);
      } else {
        BodyAsksNothing(lang, response, forbidden, Kept(lang, response, forbidden), sentence, key);
      }
    }
  }
}
