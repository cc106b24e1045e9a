/** Anchored regular expressions of the shape the portal uses
    (`/^...$/`, made of character classes, each taken once or with `+`),
    with their matching semantics and the decomposition lemmas used to
    characterise particular patterns. */
module Regex {
  import JsText

  /** A character class: `[...]`, or `[^\s...]` (neither whitespace nor one
      of the listed characters). */
  datatype Class = In(chars: set<char>) | NotSpaceNorIn(chars: set<char>)

  predicate Accepts(k: Class, c: char) {
    match k
    case In(cs) => c in cs
    case NotSpaceNorIn(cs) => !JsText.IsJsWhitespace(c) && c !in cs
  }

  /** One element of a pattern: a class taken once, or `class+`. */
  datatype Item = Once(cls: Class) | Plus(cls: Class)

  /** Does the anchored pattern `p` match the whole of `s`?  `Plus` tries
      every split point, as a backtracking matcher does. */
  function Matches(p: seq<Item>, s: string): bool
    decreases |s|, |p|
  {
    if p == [] then s == []
    else if |s| == 0 then false
    else match p[0]
      case Once(k) => Accepts(k, s[0]) && Matches(p[1..], s[1..])
      case Plus(k) => Accepts(k, s[0]) && (Matches(p[1..], s[1..]) || Matches(p, s[1..]))
  }

  predicate AllAccepted(k: Class, t: string) {
    forall i :: 0 <= i < |t| ==> Accepts(k, t[i])
  }

  predicate NoPlus(p: seq<Item>) {
    forall i :: 0 <= i < |p| ==> p[i].Once?
  }

  /** `n` copies of one item (`[0-9a-f]{8}` is `Repeat(Once(hex), 8)`). */
  function Repeat(x: Item, n: nat): (r: seq<Item>)
    ensures |r| == n && forall i :: 0 <= i < n ==> r[i] == x
  {
    if n == 0 then [] else [x] + Repeat(x, n - 1)
  }

  /** A pattern without `+` matches exactly the strings of its own length
      whose every character its class at that position accepts. */
  lemma {:induction false} MatchesFixed(p: seq<Item>, s: string)
    requires NoPlus(p)
    ensures Matches(p, s) <==> |s| == |p| && forall i :: 0 <= i < |s| ==> Accepts(p[i].cls, s[i])
  {
    if p != [] && |s| > 0 {
      MatchesFixed(p[1..], s[1..]);
      if |s| == |p| && forall i :: 0 <= i < |s| ==> Accepts(p[i].cls, s[i]) {
        assert Accepts(p[0].cls, s[0]);
        assert forall i :: 0 <= i < |s| - 1 ==> Accepts(p[1..][i].cls, s[1..][i]) by {
          forall i | 0 <= i < |s| - 1 ensures Accepts(p[1..][i].cls, s[1..][i]) {
            assert p[1..][i] == p[i + 1] && s[1..][i] == s[i + 1];
          }
        }
      }
      if Matches(p, s) {
        forall i | 0 <= i < |s| ensures Accepts(p[i].cls, s[i]) {
          if i > 0 { assert p[1..][i - 1] == p[i] && s[1..][i - 1] == s[i]; }
        }
      }
    }
  }

  /** A match of `Once(k)` followed by the rest, read off the first character. */
  lemma OnceStep(p: seq<Item>, s: string)
    requires |p| > 0 && p[0].Once?
    ensures Matches(p, s) <==> |s| > 0 && Accepts(p[0].cls, s[0]) && Matches(p[1..], s[1..])
  {
  }

  /** A match of a leading `k+` takes some non-empty run of accepted
      characters; the rest of the pattern matches what follows. */
  lemma {:induction false} PlusElim(p: seq<Item>, s: string) returns (n: nat)
    requires |p| > 0 && p[0].Plus? && Matches(p, s)
    ensures 1 <= n <= |s| && AllAccepted(p[0].cls, s[..n]) && Matches(p[1..], s[n..])
    decreases |s|
  {
    if Matches(p[1..], s[1..]) {
      n := 1;
    } else {
      var m := PlusElim(p, s[1..]);
      n := m + 1;
      assert s[1..][m..] == s[n..];
      forall i | 0 <= i < n ensures Accepts(p[0].cls, s[..n][i]) {
        if i > 0 { assert s[..n][i] == s[1..][..m][i - 1]; }
      }
    }
  }

  /** Conversely, any non-empty run of accepted characters followed by a
      match of the rest is a match of `k+` and the rest. */
  lemma {:induction false} PlusIntro(p: seq<Item>, s: string, n: nat)
    requires |p| > 0 && p[0].Plus?
    requires 1 <= n <= |s| && AllAccepted(p[0].cls, s[..n]) && Matches(p[1..], s[n..])
    ensures Matches(p, s)
    decreases n
  {
    assert Accepts(p[0].cls, s[..n][0]);
    if n > 1 {
      assert s[1..][..n - 1] == s[1..n];
      var u := s[1..][..n - 1];
      forall i | 0 <= i < |u| ensures Accepts(p[0].cls, u[i]) {
        assert u[i] == s[..n][i + 1];
      }
      assert s[1..][n - 1..] == s[n..];
      PlusIntro(p, s[1..], n - 1);
    } else {
      assert s[1..] == s[n..];
    }
  }
}
