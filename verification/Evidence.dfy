/** Literal evidence: the normal form of a text and the relation "this span is
    literally in this message" (analyzer/contract_v3.py). */
module Evidence {

  /** What the normaliser needs of the character tables. `fold` is one character
      decomposed, stripped of its combining marks and lower-cased; `isWord` is
      the `\w` class. White space needs no table of its own: after the first
      substitution everything that is neither a word character nor '%' is a
      blank or about to be collapsed into one. */
  datatype Unicode = Unicode(fold: char -> seq<char>, isWord: char -> bool) {

    /** Folding twice is folding once, and a blank is not a word character. */
    ghost predicate Valid() {
      && fold(' ') == [' ']
      && !isWord(' ')
      && forall c: char, d: char :: d in fold(c) ==> fold(d) == [d]
    }

    function Visible(c: char): char {
      if isWord(c) || c == '%' then c else ' '
    }

    function VisibleAll(s: seq<char>): (r: seq<char>) {
      if s == [] then [] else [Visible(s[0])] + VisibleAll(s[1..])
    }

    function Canon(s: string): string {
      if s == "" then "" else VisibleAll(fold(s[0])) + Canon(s[1..])
    }

    /** `_normalize_for_evidence` */
    function Normalize(s: string): string {
      Trim(Squeeze(Canon(s)))
    }
  }

  predicate OccursAt(p: string, t: string, k: nat) {
    k + |p| <= |t| && t[k..k + |p|] == p
  }

  predicate Infix(p: string, t: string) {
    exists k | 0 <= k <= |t| :: OccursAt(p, t, k)
  }

  /** A way of normalising texts. What is built on literal evidence below holds
      for any of them; `Unicode.Normalize` is the one the analyzer uses. */
  type Normalizer = string -> string

  /** `evidence_span_in_message` */
  predicate SpanInMessage(norm: Normalizer, span: string, message: string) {
    norm(span) != "" && Infix(norm(span), norm(message))
  }

  /** The normal form of any contiguous slice is part of the normal form. */
  ghost predicate Lawful(norm: Normalizer) {
    forall message: string, i: nat, j: nat {:trigger norm(message[i..j])} | i <= j <= |message| ::
      Infix(norm(message[i..j]), norm(message))
  }

  function Squeeze(s: string): string {
    if |s| <= 1 then s
    else if s[0] == ' ' && s[1] == ' ' then Squeeze(s[1..])
    else [s[0]] + Squeeze(s[1..])
  }

  /** The position of the first character outside `cut`. */
  function Head(s: string, cut: set<char>): (i: nat)
    ensures i <= |s|
  {
    if s == "" || s[0] !in cut then 0 else 1 + Head(s[1..], cut)
  }

  /** One past the position of the last character outside `cut`. */
  function Tail(s: string, cut: set<char>): (i: nat)
    ensures i <= |s|
  {
    if s == "" || s[|s| - 1] !in cut then |s| else Tail(s[..|s| - 1], cut)
  }

  /** Python's `strip`: without the characters of `cut` at either end. */
  function Strip(s: string, cut: set<char>): string {
    if Head(s, cut) <= Tail(s, cut) then s[Head(s, cut)..Tail(s, cut)] else ""
  }

  const BLANKS: set<char> := {' '}

  function Trim(s: string): string {
    Strip(s, BLANKS)
  }

  // ---------- the infix relation ----------

  lemma InfixTransitive(p: string, q: string, t: string)
    requires Infix(p, q) && Infix(q, t)
    ensures Infix(p, t)
  {
    var i :| 0 <= i <= |q| && OccursAt(p, q, i);
    var j :| 0 <= j <= |t| && OccursAt(q, t, j);
    assert OccursAt(p, t, i + j) by {
      forall k | 0 <= k < |p| ensures t[i + j..i + j + |p|][k] == p[k] {
        assert p[k] == q[i..i + |p|][k] == q[i + k];
        assert q[i + k] == t[j..j + |q|][i + k];
      }
    }
  }

  lemma InfixReflexive(t: string)
    ensures Infix(t, t)
  {
    assert OccursAt(t, t, 0);
  }

  lemma SliceInSlice(s: string, p: string, t: string, a: nat, b: nat, i: nat, j: nat)
    requires a <= i <= j <= b <= |s| && p == s[i..j] && t == s[a..b]
    ensures Infix(p, t)
  {
    var k := i - a;
    assert forall n :: 0 <= n < |p| ==> t[k + n] == s[i + n] == p[n];
    assert t[k..k + |p|] == p;
    assert OccursAt(p, t, k);
  }

  lemma ConsConcat(a: string, b: string)
    requires a != ""
    ensures [a[0]] + (a[1..] + b) == a + b
  {
  }

  lemma ConcatSnoc(b: string, c: string)
    requires c != ""
    ensures (b + c[..|c| - 1]) + [c[|c| - 1]] == b + c
  {
  }

  /** Being literal evidence is transitive: a span of a span is a span. */
  lemma SpanTransitive(norm: Normalizer, inner: string, outer: string, message: string)
    requires SpanInMessage(norm, inner, outer) && Infix(norm(outer), norm(message))
    ensures SpanInMessage(norm, inner, message)
  {
    InfixTransitive(norm(inner), norm(outer), norm(message));
  }

  // ---------- trimming and squeezing ----------

  lemma {:induction false} HeadIs(s: string, cut: set<char>, i: nat)
    requires i <= |s|
    requires forall k :: 0 <= k < i ==> s[k] in cut
    requires i < |s| ==> s[i] !in cut
    ensures Head(s, cut) == i
  {
    if i > 0 {
      HeadIs(s[1..], cut, i - 1);
    }
  }

  lemma {:induction false} TailIs(s: string, cut: set<char>, i: nat)
    requires i <= |s|
    requires forall k :: i <= k < |s| ==> s[k] in cut
    requires i > 0 ==> s[i - 1] !in cut
    ensures Tail(s, cut) == i
  {
    if i < |s| {
      TailIs(s[..|s| - 1], cut, i);
    }
  }

  lemma {:induction false} HeadFacts(s: string, cut: set<char>)
    ensures forall k :: 0 <= k < Head(s, cut) ==> s[k] in cut
    ensures Head(s, cut) < |s| ==> s[Head(s, cut)] !in cut
  {
    if s != "" && s[0] in cut {
      HeadFacts(s[1..], cut);
      assert forall k :: 1 <= k < |s| ==> s[k] == s[1..][k - 1];
    }
  }

  lemma {:induction false} TailFacts(s: string, cut: set<char>)
    ensures forall k :: Tail(s, cut) <= k < |s| ==> s[k] in cut
    ensures Tail(s, cut) > 0 ==> s[Tail(s, cut) - 1] !in cut
  {
    if s != "" && s[|s| - 1] in cut {
      TailFacts(s[..|s| - 1], cut);
    }
  }

  /** Stripping keeps a slice that starts and ends outside `cut`, or nothing. */
  lemma StripFacts(s: string, cut: set<char>)
    ensures var r, i, j := Strip(s, cut), Head(s, cut), Tail(s, cut);
            && (r != "" ==> i < j && r == s[i..j] && r[0] !in cut && r[|r| - 1] !in cut)
            && (r == "" ==> forall k :: 0 <= k < |s| ==> s[k] in cut)
  {
    HeadFacts(s, cut);
    TailFacts(s, cut);
    if Head(s, cut) < |s| {
      assert Head(s, cut) < Tail(s, cut);
    }
  }

  lemma {:induction false} SqueezeAppend(s: string, c: char)
    ensures Squeeze(s + [c]) ==
            if c == ' ' && s != "" && s[|s| - 1] == ' ' then Squeeze(s) else Squeeze(s) + [c]
  {
    if |s| >= 1 {
      assert (s + [c])[1..] == s[1..] + [c];
      SqueezeAppend(s[1..], c);
      if |s| == 1 {
        assert s[1..] == "";
        assert s + [c] == [s[0], c];
      } else {
        assert s[1..][|s[1..]| - 1] == s[|s| - 1];
      }
    }
  }

  function Tidy(s: string): string {
    Trim(Squeeze(s))
  }

  lemma {:induction false} TrimPrepend(c: char, q: string)
    ensures Infix(Trim(q), Trim([c] + q))
  {
    var s := [c] + q;
    var i, j := Head(q, BLANKS), Tail(q, BLANKS);
    HeadFacts(q, BLANKS);
    TailFacts(q, BLANKS);
    HeadIs(s, BLANKS, if c == ' ' then i + 1 else 0);
    TailIs(s, BLANKS, if c == ' ' && j == 0 then 0 else j + 1);
    if i < j {
      assert s[i + 1..j + 1] == q[i..j];
      SliceInSlice(s, Trim(q), Trim(s), Head(s, BLANKS), j + 1, i + 1, j + 1);
    } else {
      assert OccursAt("", Trim(s), 0);
    }
  }

  lemma {:induction false} TrimAppend(q: string, c: char)
    ensures Infix(Trim(q), Trim(q + [c]))
  {
    var s := q + [c];
    var i, j := Head(q, BLANKS), Tail(q, BLANKS);
    HeadFacts(q, BLANKS);
    TailFacts(q, BLANKS);
    HeadIs(s, BLANKS, if c == ' ' && i == |q| then i + 1 else i);
    TailIs(s, BLANKS, if c == ' ' then j else |s|);
    if i < j {
      assert s[i..j] == q[i..j];
      SliceInSlice(s, Trim(q), Trim(s), i, Tail(s, BLANKS), i, j);
    } else {
      assert OccursAt("", Trim(s), 0);
    }
  }

  lemma {:induction false} TidyPrepend(c: char, s: string)
    ensures Infix(Tidy(s), Tidy([c] + s))
  {
    assert ([c] + s)[1..] == s;
    assert Squeeze([c] + s) == if c == ' ' && s != "" && s[0] == ' ' then Squeeze(s) else [c] + Squeeze(s);
    InfixReflexive(Tidy(s));
    TrimPrepend(c, Squeeze(s));
  }

  lemma {:induction false} TidyAppend(s: string, c: char)
    ensures Infix(Tidy(s), Tidy(s + [c]))
  {
    SqueezeAppend(s, c);
    InfixReflexive(Tidy(s));
    TrimAppend(Squeeze(s), c);
  }

  lemma {:induction false} TidySuffix(a: string, b: string)
    ensures Infix(Tidy(b), Tidy(a + b))
  {
    if a == "" {
      assert a + b == b;
      InfixReflexive(Tidy(b));
    } else {
      TidySuffix(a[1..], b);
      TidyPrepend(a[0], a[1..] + b);
      ConsConcat(a, b);
      InfixTransitive(Tidy(b), Tidy(a[1..] + b), Tidy(a + b));
    }
  }

  lemma {:induction false} TidyPrefix(b: string, c: string)
    ensures Infix(Tidy(b), Tidy(b + c))
  {
    if c == "" {
      assert b + c == b;
      InfixReflexive(Tidy(b));
    } else {
      var n := |c| - 1;
      TidyPrefix(b, c[..n]);
      TidyAppend(b + c[..n], c[n]);
      ConcatSnoc(b, c);
      InfixTransitive(Tidy(b), Tidy(b + c[..n]), Tidy(b + c));
    }
  }

  /** Tidying a part of a text gives a part of the tidied text. */
  lemma TidySlice(a: string, b: string, c: string)
    ensures Infix(Tidy(b), Tidy(a + b + c))
  {
    TidySuffix(a, b);
    TidyPrefix(a + b, c);
    InfixTransitive(Tidy(b), Tidy(a + b), Tidy(a + b + c));
  }

  lemma {:induction false} CanonConcat(u: Unicode, a: string, b: string)
    ensures u.Canon(a + b) == u.Canon(a) + u.Canon(b)
  {
    if a == "" {
      assert a + b == b;
    } else {
      assert (a + b)[1..] == a[1..] + b;
      CanonConcat(u, a[1..], b);
    }
  }

  /** The normal form of any contiguous slice of a message is an infix of the
      normal form of the message. */
  lemma SliceLaw(u: Unicode)
    ensures Lawful(u.Normalize)
  {
    forall message: string, i: nat, j: nat | i <= j <= |message|
      ensures Infix(u.Normalize(message[i..j]), u.Normalize(message))
    {
      var a, b, c := message[..i], message[i..j], message[j..];
      assert message == a + b + c;
      CanonConcat(u, a + b, c);
      CanonConcat(u, a, b);
      TidySlice(u.Canon(a), u.Canon(b), u.Canon(c));
    }
  }

  // ---------- normal forms are fixed points ----------

  predicate NoDouble(s: string) {
    forall k :: 0 <= k < |s| - 1 ==> !(s[k] == ' ' && s[k + 1] == ' ')
  }

  predicate Bare(s: string) {
    s != "" ==> s[0] != ' ' && s[|s| - 1] != ' '
  }

  lemma {:induction false} SqueezeNoDouble(s: string)
    ensures NoDouble(Squeeze(s))
    ensures forall c :: c in Squeeze(s) ==> c in s
  {
    if |s| > 1 {
      SqueezeNoDouble(s[1..]);
      if !(s[0] == ' ' && s[1] == ' ') {
        var r := Squeeze(s[1..]);
        forall k | 0 <= k < |r|
          ensures !(([s[0]] + r)[k] == ' ' && ([s[0]] + r)[k + 1] == ' ')
        {
          if k > 0 { assert ([s[0]] + r)[k] == r[k - 1]; }
        }
      }
    }
  }

  lemma {:induction false} SqueezeFixed(s: string)
    requires NoDouble(s)
    ensures Squeeze(s) == s
  {
    if |s| > 1 {
      assert NoDouble(s[1..]) by {
        forall k | 0 <= k < |s[1..]| - 1 ensures !(s[1..][k] == ' ' && s[1..][k + 1] == ' ') {
          assert s[1..][k] == s[k + 1] && s[1..][k + 1] == s[k + 2];
        }
      }
      SqueezeFixed(s[1..]);
      assert !(s[0] == ' ' && s[0 + 1] == ' ');
    }
  }

  ghost predicate Settled(u: Unicode, c: char) {
    u.fold(c) == [c] && u.Visible(c) == c
  }

  lemma {:induction false} VisibleSettled(u: Unicode, c: char, s: seq<char>)
    requires u.Valid()
    requires forall d :: d in s ==> u.fold(d) == [d]
    ensures forall d :: d in u.VisibleAll(s) ==> Settled(u, d)
  {
    if s != [] {
      VisibleSettled(u, c, s[1..]);
      assert s[0] in s;
    }
  }

  lemma {:induction false} CanonSettled(u: Unicode, s: string)
    requires u.Valid()
    ensures forall d :: d in u.Canon(s) ==> Settled(u, d)
  {
    if s != "" {
      CanonSettled(u, s[1..]);
      VisibleSettled(u, s[0], u.fold(s[0]));
    }
  }

  lemma {:induction false} CanonFixed(u: Unicode, s: string)
    requires forall d :: d in s ==> Settled(u, d)
    ensures u.Canon(s) == s
  {
    if s != "" {
      assert Settled(u, s[0]);
      CanonFixed(u, s[1..]);
      assert u.VisibleAll([s[0]]) == [s[0]] + u.VisibleAll([s[0]][1..]);
    }
  }

  lemma SliceKeepsShape(q: string, i: nat, j: nat)
    requires NoDouble(q) && i <= j <= |q|
    ensures NoDouble(q[i..j])
  {
    var n := q[i..j];
    forall k | 0 <= k < |n| - 1 ensures !(n[k] == ' ' && n[k + 1] == ' ') {
      assert n[k] == q[i + k] && n[k + 1] == q[i + k + 1];
    }
  }

  lemma {:induction false} TrimKeepsShape(q: string)
    requires NoDouble(q)
    ensures NoDouble(Trim(q)) && Bare(Trim(q))
    ensures forall c :: c in Trim(q) ==> c in q
  {
    StripFacts(q, BLANKS);
    if Trim(q) != "" {
      SliceKeepsShape(q, Head(q, BLANKS), Tail(q, BLANKS));
    }
  }

  ghost predicate NormalForm(u: Unicode, n: string) {
    NoDouble(n) && Bare(n) && forall d :: d in n ==> Settled(u, d)
  }

  /** What a normal form looks like: settled characters, no two blanks in a
      row, no blank at either end. */
  lemma NormalFormShape(u: Unicode, s: string)
    requires u.Valid()
    ensures NormalForm(u, u.Normalize(s))
  {
    var canon := u.Canon(s);
    CanonSettled(u, s);
    SqueezeNoDouble(canon);
    TrimKeepsShape(Squeeze(canon));
  }

  /** Conversely, every text of that shape is its own normal form. */
  lemma NormalFormsAreFixed(u: Unicode, n: string)
    requires NormalForm(u, n)
    ensures u.Normalize(n) == n
  {
    CanonFixed(u, n);
    SqueezeFixed(n);
    HeadIs(n, BLANKS, 0);
    TailIs(n, BLANKS, |n|);
  }

  /** Normalising is idempotent. */
  lemma NormalizeIdempotent(u: Unicode, s: string)
    requires u.Valid()
    ensures u.Normalize(u.Normalize(s)) == u.Normalize(s)
  {
    NormalFormShape(u, s);
    NormalFormsAreFixed(u, u.Normalize(s));
  }

  /** So evidence may be quoted from the message or from its normal form. */
  lemma SpanOfNormalForm(u: Unicode, span: string, message: string)
    requires u.Valid()
    ensures SpanInMessage(u.Normalize, u.Normalize(span), message) <==> SpanInMessage(u.Normalize, span, message)
    ensures SpanInMessage(u.Normalize, span, u.Normalize(message)) <==> SpanInMessage(u.Normalize, span, message)
  {
    NormalizeIdempotent(u, span);
    NormalizeIdempotent(u, message);
  }
}
