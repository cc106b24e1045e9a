/** src/utils/validation.js: the UUID check, UUID normalisation and text
    truncation.  The regular expressions are written as `Regex` patterns and
    each is proved equal to a position-by-position statement of the layout. */
module Validation {
  import opened Regex

  /** A value handed to the UUID helpers: a string, or any other JavaScript
      value together with the text `String(value)` gives for it. */
  datatype IdValue = Str(s: string) | NonStr(rendered: string)

  /** `String(id)`. */
  function Text(v: IdValue): string {
    match v
    case Str(s) => s
    case NonStr(r) => r
  }

  // ---- the patterns -----------------------------------------------------

  /** `[0-9a-f]` under the `i` flag. */
  const HexClass: Class := In({'0', '1', '2', '3', '4', '5', '6', '7', '8', '9',
                               'a', 'b', 'c', 'd', 'e', 'f',
                               'A', 'B', 'C', 'D', 'E', 'F'})
  const Hex: Item := Once(HexClass)
  const Dash: Item := Once(In({'-'}))
  /** `[1-5]`: the version nibble (section 4.1.3 of RFC 4122). */
  const Version: Item := Once(In({'1', '2', '3', '4', '5'}))
  /** `[89ab]` under the `i` flag: the variant nibble (section 4.1.1 of RFC 4122). */
  const Variant: Item := Once(In({'8', '9', 'a', 'b', 'A', 'B'}))

  /** `/^[0-9a-f]{8}-[0-9a-f]{4}-[1-5][0-9a-f]{3}-[89ab][0-9a-f]{3}-[0-9a-f]{12}$/i` */
  const UuidPattern: seq<Item> :=
    Repeat(Hex, 8) + [Dash] + Repeat(Hex, 4) + [Dash] + [Version] + Repeat(Hex, 3)
    + [Dash] + [Variant] + Repeat(Hex, 3) + [Dash] + Repeat(Hex, 12)

  /** `/^[0-9a-f]{32}$/i` */
  const Hex32Pattern: seq<Item> := Repeat(Hex, 32)

  // ---- the RFC 4122 text layout, position by position -------------------

  predicate IsHexDigit(c: char) {
    '0' <= c <= '9' || 'a' <= c <= 'f' || 'A' <= c <= 'F'
  }

  predicate IsDashPosition(i: int) {
    i == 8 || i == 13 || i == 18 || i == 23
  }

  /** The RFC 4122 text layout, case-insensitive: 36 characters, dashes at
      8, 13, 18 and 23, version digit 1-5 at 14, variant 8, 9, a or b at
      19, and hexadecimal digits everywhere else. */
  predicate UuidLayout(s: string) {
    |s| == 36
    && (forall i :: 0 <= i < 36 && IsDashPosition(i) ==> s[i] == '-')
    && '1' <= s[14] <= '5'
    && s[19] in {'8', '9', 'a', 'b', 'A', 'B'}
    && (forall i :: 0 <= i < 36 && !IsDashPosition(i) && i != 14 && i != 19 ==> IsHexDigit(s[i]))
  }

  predicate AllHex(s: string) {
    forall i :: 0 <= i < |s| ==> IsHexDigit(s[i])
  }

  // ---- the operations ----------------------------------------------------

  /** `isValidUUID(str)`: truthy only for a non-empty string the pattern
      matches. */
  predicate IsValidUUID(v: IdValue) {
    v.Str? && v.s != "" && Matches(UuidPattern, v.s)
  }

  /** `${h.slice(0, 8)}-${h.slice(8, 12)}-${h.slice(12, 16)}-${h.slice(16, 20)}-${h.slice(20)}` */
  function Dashed(h: string): string
    requires |h| == 32
  {
    h[..8] + "-" + h[8..12] + "-" + h[12..16] + "-" + h[16..20] + "-" + h[20..]
  }

  /** `normalizeUUID(id)`. */
  function NormalizeUUID(v: IdValue): string {
    if IsValidUUID(v) then v.s
    else
      var t := Text(v);
      Hex32PatternIff(t);
      if Matches(Hex32Pattern, t) then Dashed(t) else t
  }

  /** `s` with every '-' taken out. */
  function RemoveDashes(s: string): (r: string)
    ensures forall i :: 0 <= i < |r| ==> r[i] != '-'
  {
    if s == [] then [] else (if s[0] == '-' then [] else [s[0]]) + RemoveDashes(s[1..])
  }

  /** `truncateText(text, maxLength)`.  `substring` clamps a negative end
      to 0, so a negative `maxLength` keeps nothing before the ellipsis. */
  function TruncateText(text: string, maxLength: int): (r: string)
    ensures text == "" ==> r == ""
    ensures text != "" && |text| <= maxLength ==> r == text
    ensures text != "" && |text| > maxLength ==>
              var keep := if maxLength < 0 then 0 else maxLength;
              |r| == keep + 3 && r[..keep] == text[..keep] && r[keep..] == "..."
  {
    if text == "" then ""
    else if |text| <= maxLength then text
    else text[..if maxLength < 0 then 0 else maxLength] + "..."
  }

  // ---- lemmas ------------------------------------------------------------

  lemma HexClassIsHexDigit(c: char)
    ensures Accepts(HexClass, c) <==> IsHexDigit(c)
  {
  }

  /** Where each class of the UUID pattern sits. */
  lemma UuidPatternAt(i: int)
    requires 0 <= i < 36
    ensures |UuidPattern| == 36
    ensures UuidPattern[i] ==
      if IsDashPosition(i) then Dash
      else if i == 14 then Version
      else if i == 19 then Variant
      else Hex
  {
    var a := Repeat(Hex, 8);
    var b := Repeat(Hex, 4);
    var c := Repeat(Hex, 3);
    var e := Repeat(Hex, 12);
    assert UuidPattern == a + [Dash] + b + [Dash] + [Version] + c + [Dash] + [Variant] + c + [Dash] + e;
  }

  lemma UuidPatternNoPlus()
    ensures NoPlus(UuidPattern)
  {
    forall i | 0 <= i < |UuidPattern| ensures UuidPattern[i].Once? {
      UuidPatternAt(i);
    }
  }

  /** The UUID pattern accepts exactly the strings with the RFC 4122 layout. */
  lemma UuidPatternIffLayout(s: string)
    ensures Matches(UuidPattern, s) <==> UuidLayout(s)
  {
    UuidPatternNoPlus();
    MatchesFixed(UuidPattern, s);
    UuidPatternAt(0);
    if |s| == 36 {
      forall i | 0 <= i < 36
        ensures Accepts(UuidPattern[i].cls, s[i]) <==>
          if IsDashPosition(i) then s[i] == '-'
          else if i == 14 then '1' <= s[i] <= '5'
          else if i == 19 then s[i] in {'8', '9', 'a', 'b', 'A', 'B'}
          else IsHexDigit(s[i])
      {
        UuidPatternAt(i);
      }
    }
  }

  /** `isValidUUID` holds exactly for strings with the RFC 4122 layout; in
      particular it is false for the empty string and for every non-string. */
  lemma IsValidUUIDIffLayout(v: IdValue)
    ensures IsValidUUID(v) <==> v.Str? && UuidLayout(v.s)
    ensures !IsValidUUID(Str("")) && !IsValidUUID(NonStr(Text(v)))
  {
    if v.Str? { UuidPatternIffLayout(v.s); }
  }

  /** The dashless pattern accepts exactly the 32-digit hexadecimal strings. */
  lemma Hex32PatternIff(s: string)
    ensures Matches(Hex32Pattern, s) <==> |s| == 32 && AllHex(s)
  {
    MatchesFixed(Hex32Pattern, s);
    forall i | 0 <= i < |s| ensures Accepts(HexClass, s[i]) <==> IsHexDigit(s[i]) {
      HexClassIsHexDigit(s[i]);
    }
  }

  lemma {:induction false} RemoveDashesConcat(a: string, b: string)
    ensures RemoveDashes(a + b) == RemoveDashes(a) + RemoveDashes(b)
  {
    if a != [] {
      var head := if a[0] == '-' then [] else [a[0]];
      assert (a + b)[0] == a[0];
      assert (a + b)[1..] == a[1..] + b;
      assert RemoveDashes(a + b) == head + RemoveDashes(a[1..] + b);
      RemoveDashesConcat(a[1..], b);
      assert RemoveDashes(a) == head + RemoveDashes(a[1..]);
    } else {
      assert a + b == b;
    }
  }

  lemma {:induction false} RemoveDashesNone(a: string)
    requires forall i :: 0 <= i < |a| ==> a[i] != '-'
    ensures RemoveDashes(a) == a
  {
    if a != [] { RemoveDashesNone(a[1..]); }
  }

  /** Deleting the dashes of `x + "-" + p`, where `p` has none. */
  lemma RemoveDashesAppendPiece(x: string, p: string)
    requires forall i :: 0 <= i < |p| ==> p[i] != '-'
    ensures RemoveDashes(x + "-" + p) == RemoveDashes(x) + p
  {
    RemoveDashesConcat(x + "-", p);
    RemoveDashesConcat(x, "-");
    RemoveDashesNone(p);
  }

  lemma AllHexNoDash(h: string)
    requires AllHex(h)
    ensures forall i :: 0 <= i < |h| ==> h[i] != '-'
  {
  }

  /** The dashes `Dashed` inserts sit at 8, 13, 18 and 23. */
  lemma DashedLayout(h: string)
    requires |h| == 32 && AllHex(h)
    ensures |Dashed(h)| == 36
    ensures forall i :: 0 <= i < 36 ==> (Dashed(h)[i] == '-' <==> IsDashPosition(i))
  {
    var d := Dashed(h);
    forall i | 0 <= i < 36 ensures d[i] == '-' <==> IsDashPosition(i) {
      if i < 8 { assert d[i] == h[i]; }
      else if 8 < i < 13 { assert d[i] == h[i - 1]; }
      else if 13 < i < 18 { assert d[i] == h[i - 2]; }
      else if 18 < i < 23 { assert d[i] == h[i - 3]; }
      else if 23 < i { assert d[i] == h[i - 4]; }
    }
  }

  /** Re-inserting the dashes into a 32-digit hexadecimal string and
      deleting them again gives the input back. */
  lemma DashedRoundTrip(h: string)
    requires |h| == 32 && AllHex(h)
    ensures RemoveDashes(Dashed(h)) == h
  {
    var p1, p2, p3, p4, p5 := h[..8], h[8..12], h[12..16], h[16..20], h[20..];
    AllHexNoDash(p1); AllHexNoDash(p2); AllHexNoDash(p3); AllHexNoDash(p4); AllHexNoDash(p5);
    RemoveDashesNone(p1);
    RemoveDashesAppendPiece(p1, p2);
    RemoveDashesAppendPiece(p1 + "-" + p2, p3);
    RemoveDashesAppendPiece(p1 + "-" + p2 + "-" + p3, p4);
    RemoveDashesAppendPiece(p1 + "-" + p2 + "-" + p3 + "-" + p4, p5);
    assert h == p1 + p2 + p3 + p4 + p5;
  }

  /** What `normalizeUUID` returns, case by case. */
  lemma NormalizeUUIDCases(v: IdValue)
    ensures IsValidUUID(v) ==> NormalizeUUID(v) == v.s
    ensures !IsValidUUID(v) && |Text(v)| == 32 && AllHex(Text(v)) ==>
              |NormalizeUUID(v)| == 36 && RemoveDashes(NormalizeUUID(v)) == Text(v)
              && forall i :: 0 <= i < 36 ==> (NormalizeUUID(v)[i] == '-' <==> IsDashPosition(i))
    ensures !IsValidUUID(v) && !(|Text(v)| == 32 && AllHex(Text(v))) ==> NormalizeUUID(v) == Text(v)
  {
    Hex32PatternIff(Text(v));
    if !IsValidUUID(v) && |Text(v)| == 32 && AllHex(Text(v)) {
      DashedLayout(Text(v));
      DashedRoundTrip(Text(v));
    }
  }

  /** Normalising a normalised value changes nothing. */
  lemma NormalizeUUIDIdempotent(v: IdValue)
    ensures NormalizeUUID(Str(NormalizeUUID(v))) == NormalizeUUID(v)
  {
    var r := NormalizeUUID(v);
    NormalizeUUIDCases(v);
    Hex32PatternIff(r);
    if !IsValidUUID(v) && Matches(Hex32Pattern, Text(v)) {
      Hex32PatternIff(Text(v));
      assert |r| == 36;
    }
  }
}
