/** The e-mail shape check of src/components/LoginNew.js,
    `/^[^\s@]+@[^\s@]+\.[^\s@]+$/`, and its characterisation. */
module Email {
  import opened Regex
  import JsText

  /** `[^\s@]` */
  const Part: Class := NotSpaceNorIn({'@'})

  /** `/^[^\s@]+@[^\s@]+\.[^\s@]+$/` */
  const EmailPattern: seq<Item> :=
    [Plus(Part), Once(In({'@'})), Plus(Part), Once(In({'.'})), Plus(Part)]

  /** `isValidEmail(email)` (src/components/LoginNew.js:19-22). */
  predicate IsValidEmail(s: string) {
    Matches(EmailPattern, s)
  }

  predicate NoWhitespace(s: string) {
    forall i :: 0 <= i < |s| ==> !JsText.IsJsWhitespace(s[i])
  }

  /** The only '@' of `s` is at `a`. */
  predicate OnlyAtSignAt(s: string, a: int) {
    forall i :: 0 <= i < |s| && s[i] == '@' ==> i == a
  }

  /** After the '@' at `a` there is a '.' with text on both sides of it. */
  predicate DotInDomain(s: string, a: nat) {
    exists j :: a + 1 < j < |s| - 1 && s[j] == '.'
  }

  /** The shape in words: no whitespace, exactly one '@', a non-empty part
      before it, and a '.' after it that has text on both sides. */
  predicate EmailShape(s: string) {
    NoWhitespace(s)
    && exists a :: 0 < a < |s| && s[a] == '@' && OnlyAtSignAt(s, a) && DotInDomain(s, a)
  }

  lemma EmailPatternTails()
    ensures EmailPattern[1..] == [Once(In({'@'})), Plus(Part), Once(In({'.'})), Plus(Part)]
    ensures EmailPattern[1..][1..] == [Plus(Part), Once(In({'.'})), Plus(Part)]
    ensures EmailPattern[1..][1..][1..] == [Once(In({'.'})), Plus(Part)]
    ensures EmailPattern[1..][1..][1..][1..] == [Plus(Part)]
  {
  }

  /** A match splits the string at an '@' and a later '.'. */
  lemma MatchToShape(s: string)
    requires IsValidEmail(s)
    ensures EmailShape(s)
  {
    EmailPatternTails();
    var p1 := EmailPattern[1..];
    var p2 := p1[1..];
    var p3 := p2[1..];
    var p4 := p3[1..];
    var a := PlusElim(EmailPattern, s);
    OnceStep(p1, s[a..]);
    var t := s[a + 1..];
    assert s[a..][1..] == t;
    var n2 := PlusElim(p2, t);
    OnceStep(p3, t[n2..]);
    var u := t[n2 + 1..];
    assert t[n2..][1..] == u;
    var n3 := PlusElim(p4, u);
    assert p4[1..] == [];
    assert n3 == |u|;
    var j := a + 1 + n2;
    assert s[a] == '@';
    assert s[j] == t[n2] == '.';
    forall i | 0 <= i < |s|
      ensures !JsText.IsJsWhitespace(s[i]) && (s[i] == '@' ==> i == a)
    {
      if i < a {
        assert s[i] == s[..a][i];
      } else if a < i < j {
        assert s[i] == t[..n2][i - a - 1];
      } else if j < i {
        assert s[i] == u[..n3][i - j - 1];
      }
    }
    assert DotInDomain(s, a);
  }

  /** Text of the allowed kind on either side of an '@' and a '.' matches. */
  lemma ShapeToMatch(s: string)
    requires EmailShape(s)
    ensures IsValidEmail(s)
  {
    EmailPatternTails();
    var p1 := EmailPattern[1..];
    var a :| 0 < a < |s| && s[a] == '@' && OnlyAtSignAt(s, a) && DotInDomain(s, a);
    var j :| a + 1 < j < |s| - 1 && s[j] == '.';
    DomainMatches(s, a, j);
    assert s[a..][1..] == s[a + 1..];
    OnceStep(p1, s[a..]);
    SpanAccepted(s, a, 0, a);
    assert s[..a] == s[0..a];
    PlusIntro(EmailPattern, s, a);
  }

  /** What follows the '@' matches `[^\s@]+\.[^\s@]+` when it holds a
      '.' at `j` with text on both sides. */
  lemma DomainMatches(s: string, a: int, j: int)
    requires NoWhitespace(s) && OnlyAtSignAt(s, a)
    requires 0 <= a && a + 1 < j < |s| - 1 && s[j] == '.'
    ensures Matches(EmailPattern[1..][1..], s[a + 1..])
  {
    EmailPatternTails();
    var p2 := EmailPattern[1..][1..];
    var p3 := p2[1..];
    var p4 := p3[1..];
    var u := s[j + 1..];
    SpanAccepted(s, a, j + 1, |s|);
    assert u[..|u|] == s[j + 1..|s|] && u[|u|..] == [];
    PlusIntro(p4, u, |u|);
    assert s[j..][1..] == u;
    OnceStep(p3, s[j..]);
    var t := s[a + 1..];
    var n2 := j - a - 1;
    SpanAccepted(s, a, a + 1, j);
    assert t[..n2] == s[a + 1..j] && t[n2..] == s[j..];
    PlusIntro(p2, t, n2);
  }

  /** A stretch of `s` without the '@' at `a` is made of `[^\s@]` only. */
  lemma SpanAccepted(s: string, a: int, lo: int, hi: int)
    requires NoWhitespace(s) && OnlyAtSignAt(s, a)
    requires 0 <= lo <= hi <= |s| && (a < lo || hi <= a)
    ensures AllAccepted(Part, s[lo..hi])
  {
    forall i | 0 <= i < hi - lo ensures Accepts(Part, s[lo..hi][i]) {
      assert s[lo..hi][i] == s[lo + i];
    }
  }

  /** `isValidEmail` holds exactly for strings of the e-mail shape. */
  lemma IsValidEmailIffShape(s: string)
    ensures IsValidEmail(s) <==> EmailShape(s)
  {
    if IsValidEmail(s) { MatchToShape(s); }
    if EmailShape(s) { ShapeToMatch(s); }
  }
}
