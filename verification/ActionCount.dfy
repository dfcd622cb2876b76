/** The declared number of external actions, read from the message itself, and
    the slice of the message quoted as its evidence (analyzer/contract_v3.py). */
module ActionCount {
  import opened Commercial
  import opened Evidence

  const STRIPPED: set<char> := {' ', '¿', '?', '.', ',', ';', ':', '!', '¡'}

  /** The punctuation stripped from a quoted slice has an empty normal form. */
  ghost predicate PunctuationIsBlank(norm: Normalizer) {
    forall c: char :: c in STRIPPED ==> norm([c]) == ""
  }

  ghost predicate ValidIndexes(norm: Normalizer, message: string, indexes: seq<nat>) {
    && (forall k :: 0 <= k < |indexes| ==> indexes[k] < |message| && norm([message[indexes[k]]]) != "")
    && (forall j, k :: 0 <= j <= k < |indexes| ==> indexes[j] <= indexes[k])
  }

  /** For each character of the concatenated per-character normal forms, the
      index in the message it came from. */
  function SourceIndexes(norm: Normalizer, message: string): seq<nat> {
    if message == "" then []
    else
      var n := |message| - 1;
      SourceIndexes(norm, message[..n]) + seq(|norm([message[n]])|, _ => n)
  }

  lemma {:induction false} SourceIndexesValid(norm: Normalizer, message: string)
    ensures ValidIndexes(norm, message, SourceIndexes(norm, message))
  {
    if message != "" {
      var n := |message| - 1;
      var before := message[..n];
      SourceIndexesValid(norm, before);
      var p := SourceIndexes(norm, before);
      assert forall k :: 0 <= k < |p| ==> message[p[k]] == before[p[k]];
    }
  }

  /** `_substring_by_normalized_slice`, given the index map. */
  function SliceOf(message: string, indexes: seq<nat>, start: nat, end: nat): Option<string>
    requires start < end
    requires forall k :: 0 <= k < |indexes| ==> indexes[k] < |message|
    requires forall j, k :: 0 <= j <= k < |indexes| ==> indexes[j] <= indexes[k]
  {
    if start >= |indexes| then None
    else
      var last := if end <= |indexes| then end - 1 else |indexes| - 1;
      Some(Strip(message[indexes[start]..indexes[last] + 1], STRIPPED))
  }

  ghost predicate QuotesLiterally(norm: Normalizer, span: string, message: string) {
    Lawful(norm) && PunctuationIsBlank(norm) ==> span != "" && SpanInMessage(norm, span, message)
  }

  method IndexMap(norm: Normalizer, message: string) returns (indexes: seq<nat>)
    ensures indexes == SourceIndexes(norm, message)
  {
    indexes := [];
    for index := 0 to |message|
      invariant indexes == SourceIndexes(norm, message[..index])
    {
      var normalized := norm([message[index]]);
      ghost var before := indexes;
      for copied := 0 to |normalized|
        invariant indexes == before + seq(copied, _ => index)
      {
        indexes := indexes + [index];
      }
      assert message[..index + 1][..index] == message[..index];
    }
    assert message[..|message|] == message;
  }

  /** Whatever the positions asked for, the slice cut is accepted as literal
      evidence: it is contiguous in the message and keeps a character that has a
      normal form. It is `None` exactly when the start is past the index map. */
  method SubstringByNormalizedSlice(norm: Normalizer, message: string, start: nat, end: nat)
    returns (span: Option<string>)
    requires start < end
    ensures span.None? <==> start >= |SourceIndexes(norm, message)|
    ensures ValidIndexes(norm, message, SourceIndexes(norm, message))
    ensures span == SliceOf(message, SourceIndexes(norm, message), start, end)
    ensures span.Some? ==> QuotesLiterally(norm, span.value, message)
  {
    var indexes := IndexMap(norm, message);
    SourceIndexesValid(norm, message);
    span := SliceOf(message, indexes, start, end);
    SliceOfIsEvidence(norm, message, indexes, start, end);
  }

  lemma SliceOfIsEvidence(norm: Normalizer, message: string, indexes: seq<nat>, start: nat, end: nat)
    requires start < end && ValidIndexes(norm, message, indexes)
    ensures var span := SliceOf(message, indexes, start, end);
            span.Some? ==> QuotesLiterally(norm, span.value, message)
  {
    if start < |indexes| {
      var last := if end <= |indexes| then end - 1 else |indexes| - 1;
      StrippedSliceIsEvidence(norm, message, indexes[start], indexes[last] + 1);
    }
  }

  lemma StrippedSliceIsEvidence(norm: Normalizer, message: string, i: nat, j: nat)
    requires i < j <= |message| && norm([message[i]]) != ""
    ensures QuotesLiterally(norm, Strip(message[i..j], STRIPPED), message)
  {
    if Lawful(norm) && PunctuationIsBlank(norm) {
      var cut := message[i..j];
      assert cut[0] == message[i] && cut[0] !in STRIPPED;
      StripFacts(cut, STRIPPED);
      HeadIs(cut, STRIPPED, 0);
      var span := Strip(cut, STRIPPED);
      assert span == message[i..i + |span|];
      assert Infix(norm(message[i..i + |span|]), norm(message));
      assert span[0..1] == [message[i]];
      assert Infix(norm(span[0..1]), norm(span));
    }
  }

  // ---------- the pattern search ----------

  /** The character classes the two patterns use: `\w`, and the value of a
      decimal digit (negative for any other character). */
  datatype Classes = Classes(isWord: char -> bool, digit: char -> int) {
    ghost predicate Valid() {
      forall c: char :: digit(c) <= 9
    }
  }

  datatype Match = Match(value: nat, start: nat, end: nat)

  predicate Boundary(cls: Classes, text: string, k: nat) {
    k == 0 || k >= |text| || !cls.isWord(text[k - 1]) || !cls.isWord(text[k])
  }

  predicate IsDigit(cls: Classes, text: string, k: nat) {
    k < |text| && cls.digit(text[k]) >= 0
  }

  /** `(?:\s+acciones?)?` after position `k` of a normal form. */
  function WithUnit(text: string, k: nat): (end: nat)
    ensures end >= k
  {
    if OccursAt(" acciones", text, k) then k + 9
    else if OccursAt(" accione", text, k) then k + 8
    else k
  }

  /** The leftmost stand-alone number of one or two digits from position `k`. */
  function DigitMatch(cls: Classes, text: string, k: nat): (m: Option<Match>)
    requires cls.Valid()
    ensures m.Some? ==> m.value.value <= 99 && m.value.start < m.value.end
    decreases |text| - k
  {
    if k >= |text| then None
    else if !IsDigit(cls, text, k) || !Boundary(cls, text, k) then DigitMatch(cls, text, k + 1)
    else if IsDigit(cls, text, k + 1) && Boundary(cls, text, k + 2) then
      Some(Match(10 * cls.digit(text[k]) + cls.digit(text[k + 1]), k, WithUnit(text, k + 2)))
    else if Boundary(cls, text, k + 1) then
      Some(Match(cls.digit(text[k]), k, WithUnit(text, k + 1)))
    else DigitMatch(cls, text, k + 1)
  }

  function WordMatch(cls: Classes, text: string, word: string, value: nat, k: nat): (m: Option<Match>)
    requires word != ""
    ensures m.Some? ==> m.value.value == value && m.value.start < m.value.end
    decreases |text| - k
  {
    if k >= |text| then None
    else if OccursAt(word, text, k) && Boundary(cls, text, k) && Boundary(cls, text, k + |word|) then
      Some(Match(value, k, WithUnit(text, k + |word|)))
    else WordMatch(cls, text, word, value, k + 1)
  }

  const NUMBER_WORDS: seq<(string, nat)> :=
    [("una", 1), ("uno", 1), ("dos", 2), ("tres", 3), ("cuatro", 4), ("cinco", 5), ("seis", 6),
     ("siete", 7), ("ocho", 8), ("nueve", 9), ("diez", 10)]

  /** A match with the slice quoted for it; nothing if the slice is empty. */
  function Quoted(norm: Normalizer, message: string, m: Option<Match>): Option<(nat, string)>
    requires m.Some? ==> m.value.start < m.value.end
  {
    if m.None? then None
    else
      SourceIndexesValid(norm, message);
      match SliceOf(message, SourceIndexes(norm, message), m.value.start, m.value.end)
      case None => None
      case Some(span) => if span == "" then None else Some((m.value.value, span))
  }

  ghost predicate NumberWords(words: seq<(string, nat)>) {
    forall i :: 0 <= i < |words| ==> words[i].0 != "" && 1 <= words[i].1 <= 10
  }

  /** The program's own table is one. */
  lemma TableIsNumberWords()
    ensures NumberWords(NUMBER_WORDS)
  {
  }

  /** What the map covers: the match starts before the end of the index map. */
  predicate InReach(norm: Normalizer, message: string, m: Option<Match>) {
    m.Some? && m.value.start < |SourceIndexes(norm, message)|
  }

  /** A match is quoted exactly when it is in reach, and with its own value. */
  lemma QuotedWhenInReach(norm: Normalizer, message: string, m: Option<Match>)
    requires Lawful(norm) && PunctuationIsBlank(norm)
    requires m.Some? ==> m.value.start < m.value.end
    ensures Quoted(norm, message, m).Some? <==> InReach(norm, message, m)
    ensures var q := Quoted(norm, message, m);
            q.Some? ==> q.value.0 == m.value.value && SpanInMessage(norm, q.value.1, message)
  {
    if m.Some? {
      SourceIndexesValid(norm, message);
      SliceOfIsEvidence(norm, message, SourceIndexes(norm, message), m.value.start, m.value.end);
    }
  }

  function MatchOf(norm: Normalizer, cls: Classes, message: string, word: (string, nat)): (m: Option<Match>)
    requires word.0 != ""
    ensures m.Some? ==> m.value.value == word.1 && m.value.start < m.value.end
  {
    WordMatch(cls, norm(message), word.0, word.1, 0)
  }

  /** The first number word of a table, from entry `i` on, that is found and quoted. */
  ghost function WordCount(norm: Normalizer, cls: Classes, message: string, words: seq<(string, nat)>,
                           i: nat): Option<(nat, string)>
    requires NumberWords(words)
    decreases |words| - i
  {
    if i >= |words| then None
    else
      var found := Quoted(norm, message, MatchOf(norm, cls, message, words[i]));
      if found.Some? then found else WordCount(norm, cls, message, words, i + 1)
  }

  /** Entry `j` of the table is found in the message, and the map covers it. */
  ghost predicate WordInReach(norm: Normalizer, cls: Classes, message: string, words: seq<(string, nat)>, j: nat)
    requires NumberWords(words)
  {
    j < |words| && InReach(norm, message, MatchOf(norm, cls, message, words[j]))
  }

  /** Entry `j` is the first one from `i` on that is found and in reach. */
  ghost predicate FirstInReach(norm: Normalizer, cls: Classes, message: string, words: seq<(string, nat)>,
                               i: nat, j: nat)
    requires NumberWords(words)
  {
    && i <= j && WordInReach(norm, cls, message, words, j)
    && forall k: nat :: i <= k < j ==> !WordInReach(norm, cls, message, words, k)
  }

  /** A number word is returned exactly when some word of the table is found in
      reach of the map, and it is the first of them. */
  lemma {:induction false} WordCountMeaning(norm: Normalizer, cls: Classes, message: string,
                                            words: seq<(string, nat)>, i: nat)
    requires Lawful(norm) && PunctuationIsBlank(norm) && NumberWords(words)
    ensures var count := WordCount(norm, cls, message, words, i);
            && (count.None? <==> forall j: nat :: i <= j ==> !WordInReach(norm, cls, message, words, j))
            && (count.Some? ==>
                  && (exists j: nat :: FirstInReach(norm, cls, message, words, i, j) && count.value.0 == words[j].1)
                  && 1 <= count.value.0 <= 10 && SpanInMessage(norm, count.value.1, message))
    decreases |words| - i
  {
    if i < |words| {
      QuotedWhenInReach(norm, message, MatchOf(norm, cls, message, words[i]));
      if WordInReach(norm, cls, message, words, i) {
        assert FirstInReach(norm, cls, message, words, i, i);
      } else {
        WordCountMeaning(norm, cls, message, words, i + 1);
        var count := WordCount(norm, cls, message, words, i + 1);
        if count.Some? {
          var j: nat :| FirstInReach(norm, cls, message, words, i + 1, j) && count.value.0 == words[j].1;
          assert FirstInReach(norm, cls, message, words, i, j);
        }
      }
    }
  }

  method FirstWord(norm: Normalizer, cls: Classes, message: string, words: seq<(string, nat)>)
    returns (count: Option<(nat, string)>)
    requires Lawful(norm) && PunctuationIsBlank(norm) && NumberWords(words)
    ensures count == WordCount(norm, cls, message, words, 0)
    ensures count.Some? <==> exists j: nat :: WordInReach(norm, cls, message, words, j)
    ensures count.Some? ==> 1 <= count.value.0 <= 10 && SpanInMessage(norm, count.value.1, message)
  {
    WordCountMeaning(norm, cls, message, words, 0);
    for i := 0 to |words|
      invariant WordCount(norm, cls, message, words, 0) == WordCount(norm, cls, message, words, i)
    {
      var (word, value) := words[i];
      var found := WordMatch(cls, norm(message), word, value, 0);
      if found.Some? {
        var span := SubstringByNormalizedSlice(norm, message, found.value.start, found.value.end);
        if span.Some? && span.value != "" {
          return Some((value, span.value));
        }
      }
    }
    count := None;
  }

  /** The digits, if they are in reach and not zero. */
  predicate DigitsInReach(norm: Normalizer, cls: Classes, message: string)
    requires cls.Valid()
  {
    var m := DigitMatch(cls, norm(message), 0);
    InReach(norm, message, m) && m.value.value >= 1
  }

  /** What the extraction yields: digits first, then the number words in table
      order; a match that yields no slice is passed over. */
  ghost function Extracted(norm: Normalizer, cls: Classes, message: string, words: seq<(string, nat)>)
    : Option<(nat, string)>
    requires cls.Valid() && NumberWords(words)
  {
    var digits := Quoted(norm, message, DigitMatch(cls, norm(message), 0));
    if digits.Some? && digits.value.0 >= 1 then digits else WordCount(norm, cls, message, words, 0)
  }

  /** A count is extracted exactly when the digits or some number word of the
      message are in reach of the index map: those out of reach are lost. */
  lemma ExtractedExactly(norm: Normalizer, cls: Classes, message: string, words: seq<(string, nat)>)
    requires Lawful(norm) && PunctuationIsBlank(norm) && cls.Valid() && NumberWords(words)
    ensures var count := Extracted(norm, cls, message, words);
            && (count.Some? <==>
                  || DigitsInReach(norm, cls, message)
                  || exists j: nat :: WordInReach(norm, cls, message, words, j))
            && (count.Some? ==> 1 <= count.value.0 <= 99 && SpanInMessage(norm, count.value.1, message))
            && (DigitsInReach(norm, cls, message) ==>
                  count.value.0 == DigitMatch(cls, norm(message), 0).value.value)
            && (count.Some? && !DigitsInReach(norm, cls, message) ==>
                  exists j: nat :: FirstInReach(norm, cls, message, words, 0, j) && count.value.0 == words[j].1)
  {
    QuotedWhenInReach(norm, message, DigitMatch(cls, norm(message), 0));
    WordCountMeaning(norm, cls, message, words, 0);
  }

  /** `_extract_declared_action_count` */
  method ExtractDeclaredActionCount(norm: Normalizer, cls: Classes, message: string, words: seq<(string, nat)>)
    returns (count: Option<(nat, string)>)
    requires Lawful(norm) && PunctuationIsBlank(norm) && cls.Valid()
    requires NumberWords(words)
    ensures count == Extracted(norm, cls, message, words)
    ensures count.Some? <==>
              || DigitsInReach(norm, cls, message)
              || exists j: nat :: WordInReach(norm, cls, message, words, j)
    ensures count.Some? ==>
              1 <= count.value.0 <= 99 && SpanInMessage(norm, count.value.1, message)
    ensures DigitsInReach(norm, cls, message) ==>
              count.value.0 == DigitMatch(cls, norm(message), 0).value.value
    ensures count.Some? && !DigitsInReach(norm, cls, message) ==>
              exists j: nat :: FirstInReach(norm, cls, message, words, 0, j) && count.value.0 == words[j].1
  {
    ExtractedExactly(norm, cls, message, words);
    var digits := DigitMatch(cls, norm(message), 0);
    if digits.Some? && digits.value.value >= 1 {
      var span := SubstringByNormalizedSlice(norm, message, digits.value.start, digits.value.end);
      if span.Some? && span.value != "" {
        return Some((digits.value.value, span.value));
      }
    }
    count := FirstWord(norm, cls, message, words);
  }

  // ---------- where the slice is not the matched text ----------

  /** The tables read a letter, a blank and a digit as everyone expects. */
  ghost predicate ReadsPlainly(u: Unicode, cls: Classes) {
    && u.Valid() && cls.Valid()
    && u.fold('a') == "a" && u.fold('2') == "2" && u.isWord('a') && u.isWord('2')
    && cls.isWord('a') && cls.isWord('2') && !cls.isWord(' ')
    && cls.digit('a') < 0 && cls.digit(' ') < 0 && cls.digit('2') == 2
  }

  function PlainUnicode(): Unicode {
    Unicode(c => [c], c => 'a' <= c <= 'z' || '0' <= c <= '9')
  }

  function PlainClasses(): Classes {
    Classes(PlainUnicode().isWord, c => if '0' <= c <= '9' then (c as int) - ('0' as int) else -1)
  }

  lemma PlainCharacters()
    ensures ReadsPlainly(PlainUnicode(), PlainClasses())
  {
  }

  /** Such tables exist, and they also leave the stripped punctuation blank. */
  lemma PlainTables()
    ensures ReadsPlainly(PlainUnicode(), PlainClasses()) && PunctuationIsBlank(PlainUnicode().Normalize)
  {
    PlainCharacters();
    PunctuationIsInvisible(PlainUnicode());
  }

  lemma PunctuationIsInvisible(u: Unicode)
    requires forall c :: c in STRIPPED ==> u.fold(c) == [c] && u.Visible(c) == ' '
    ensures PunctuationIsBlank(u.Normalize)
  {
    forall c: char | c in STRIPPED ensures u.Normalize([c]) == "" {
      InvisibleIsBlank(u, c);
    }
  }

  lemma InvisibleIsBlank(u: Unicode, c: char)
    requires u.fold(c) == [c] && u.Visible(c) == ' '
    ensures u.Normalize([c]) == ""
  {
    assert u.VisibleAll([c]) == [u.Visible(c)] + u.VisibleAll([c][1..]) == " ";
    assert u.Canon([c]) == u.VisibleAll(u.fold(c)) + u.Canon([c][1..]) == " ";
    BlankIsTrimmed();
  }

  lemma BlankIsTrimmed()
    ensures Trim(" ") == ""
  {
    HeadIs(" ", BLANKS, 1);
    TailIs(" ", BLANKS, 0);
  }

  lemma PlainNormalForms(u: Unicode, cls: Classes)
    requires ReadsPlainly(u, cls)
    ensures u.Normalize("a") == "a" && u.Normalize(" ") == "" && u.Normalize("2") == "2"
    ensures u.Normalize("a 2") == "a 2"
  {
    NormalFormsAreFixed(u, "a");
    NormalFormsAreFixed(u, "2");
    NormalFormsAreFixed(u, "a 2");
    CanonFixed(u, " ");
    BlankIsTrimmed();
  }

  lemma DigitAfterBlank(u: Unicode, cls: Classes)
    requires ReadsPlainly(u, cls)
    ensures DigitMatch(cls, "a 2", 0) == Some(Match(2, 2, 3))
  {
    assert DigitMatch(cls, "a 2", 2) == Some(Match(2, 2, 3));
    assert DigitMatch(cls, "a 2", 1) == DigitMatch(cls, "a 2", 2);
  }

  lemma {:induction false} NoWordWithoutItsFirstLetter(cls: Classes, text: string, word: string, value: nat, k: nat)
    requires word != "" && word[0] !in text
    ensures WordMatch(cls, text, word, value, k).None?
    decreases |text| - k
  {
    if k < |text| {
      assert text[k] in text && text[k] != word[0];
      NoWordWithoutItsFirstLetter(cls, text, word, value, k + 1);
    }
  }

  lemma MapSkipsBlank(norm: Normalizer)
    requires norm("a") == "a" && norm(" ") == "" && norm("2") == "2"
    ensures |SourceIndexes(norm, "a 2")| == 2
  {
    assert "a 2"[..2] == "a " && "a "[..1] == "a" && "a"[..0] == "";
    assert SourceIndexes(norm, "a") == [] + seq(|norm("a")|, _ => 0);
    assert |SourceIndexes(norm, "a ")| == 1;
  }

  lemma NoWordIn(norm: Normalizer, cls: Classes, message: string)
    requires norm(message) == "a 2"
    ensures NumberWords(NUMBER_WORDS) && WordCount(norm, cls, message, NUMBER_WORDS, 0).None?
  {
    TableIsNumberWords();
    NoWordFrom(norm, cls, message, 0);
  }

  lemma {:induction false} NoWordFrom(norm: Normalizer, cls: Classes, message: string, i: nat)
    requires norm(message) == "a 2" && NumberWords(NUMBER_WORDS)
    ensures WordCount(norm, cls, message, NUMBER_WORDS, i).None?
    decreases |NUMBER_WORDS| - i
  {
    if i < |NUMBER_WORDS| {
      var (word, value) := NUMBER_WORDS[i];
      assert word[0] in "udtcson";
      NoWordWithoutItsFirstLetter(cls, "a 2", word, value, 0);
      NoWordFrom(norm, cls, message, i + 1);
    }
  }

  /** Match positions count the blanks of the normal form, the index map skips
      them: in "a 2" the number is found and literally present, yet the slice
      falls off the map and the count is lost. */
  lemma CountLostAfterABlank(u: Unicode, cls: Classes)
    requires ReadsPlainly(u, cls)
    ensures var norm, message := u.Normalize, "a 2";
            && SpanInMessage(norm, "2", message)
            && DigitMatch(cls, norm(message), 0) == Some(Match(2, 2, 3))
            && Quoted(norm, message, Some(Match(2, 2, 3))).None?
            && NumberWords(NUMBER_WORDS)
            && WordCount(norm, cls, message, NUMBER_WORDS, 0).None?
            && Extracted(norm, cls, message, NUMBER_WORDS).None?
  {
    var norm := u.Normalize;
    PlainNormalForms(u, cls);
    DigitAfterBlank(u, cls);
    MapSkipsBlank(norm);
    NoWordIn(norm, cls, "a 2");
    assert OccursAt("2", "a 2", 2);
  }
}
