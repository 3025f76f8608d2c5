/**
 * The two UUID regular expressions of the core, written as anchored matchers
 * over groups of hexadecimal digits separated by '-':
 *
 *   isValidUUID (message protocol):  8-4-4-4-12 hex digits, any digits;
 *   isUUID      (entity validators): the same, but the third group must start
 *                                    with 1-5 (the version) and the fourth with
 *                                    8, 9, a or b (the variant).
 *
 * Both expressions carry the case-insensitive flag, so A-F match as a-f do.
 */
module Uuid {
  import opened Js

  /** What the first character of a group must be. */
  datatype Lead = AnyHex | Version | Variant

  /** `[0-9a-f]{size}`, whose first character is further restricted by `lead`. */
  datatype Group = Group(size: nat, lead: Lead)

  predicate LeadOk(c: char, lead: Lead)
  {
    match lead
    case AnyHex => IsHexDigit(c)
    case Version => '1' <= c <= '5'
    case Variant => c == '8' || c == '9' || c == 'a' || c == 'b' || c == 'A' || c == 'B'
  }

  predicate GroupOk(s: string, g: Group)
  {
    |s| == g.size && AllHex(s) && (g.size > 0 ==> LeadOk(s[0], g.lead))
  }

  /** The whole of `s` matches the groups, joined by single dashes (`^...$`). */
  function Matches(s: string, groups: seq<Group>): bool
    decreases |groups|
  {
    if groups == [] then s == []
    else
      var n := groups[0].size;
      n <= |s| && GroupOk(s[..n], groups[0]) &&
      if |groups| == 1 then n == |s|
      else n < |s| && s[n] == '-' && Matches(s[n + 1..], groups[1..])
  }

  /** `/^[0-9a-f]{8}-[0-9a-f]{4}-[0-9a-f]{4}-[0-9a-f]{4}-[0-9a-f]{12}$/i` */
  const LoosePattern: seq<Group> :=
    [Group(8, AnyHex), Group(4, AnyHex), Group(4, AnyHex), Group(4, AnyHex), Group(12, AnyHex)]

  /** `/^[0-9a-f]{8}-[0-9a-f]{4}-[1-5][0-9a-f]{3}-[89ab][0-9a-f]{3}-[0-9a-f]{12}$/i` */
  const StrictPattern: seq<Group> :=
    [Group(8, AnyHex), Group(4, AnyHex), Group(4, Version), Group(4, Variant), Group(12, AnyHex)]

  /** The positions of the four dashes in a 36-character UUID. */
  predicate DashAt(i: int) { i == 8 || i == 13 || i == 18 || i == 23 }

  /** The positional reading of 8-4-4-4-12: 36 characters, dashes at 8, 13, 18 and 23, hex digits elsewhere. */
  predicate UuidShaped(s: string)
  {
    |s| == 36 && forall i :: 0 <= i < 36 ==> if DashAt(i) then s[i] == '-' else IsHexDigit(s[i])
  }

  /** The version and variant digits the strict pattern adds. */
  predicate VersionAndVariant(s: string)
    requires |s| == 36
  {
    LeadOk(s[14], Version) && LeadOk(s[19], Variant)
  }

  /** Every character of `s[lo..hi]` is a hex digit. */
  predicate HexBetween(s: string, lo: nat, hi: nat)
    requires lo <= hi <= |s|
  {
    forall i :: lo <= i < hi ==> IsHexDigit(s[i])
  }

  /** One group of a pattern, read at an offset of the whole string. */
  lemma GroupAt(s: string, at: nat, g: Group, rest: string)
    requires at + g.size <= |s| && rest == s[at..]
    ensures GroupOk(rest[..g.size], g) <==>
              HexBetween(s, at, at + g.size) && (g.size > 0 ==> LeadOk(s[at], g.lead))
  {
    assert forall k :: 0 <= k < g.size ==> rest[..g.size][k] == s[at + k];
    if HexBetween(s, at, at + g.size) {
      forall k | 0 <= k < g.size ensures IsHexDigit(rest[..g.size][k]) {
        assert IsHexDigit(s[at + k]);
      }
    }
    if AllHex(rest[..g.size]) {
      forall i | at <= i < at + g.size ensures IsHexDigit(s[i]) {
        assert s[i] == rest[..g.size][i - at];
      }
    }
  }

  /** Both patterns are the same five groups apart from the leads of the third and fourth. */
  lemma FiveGroups(s: string, p: seq<Group>)
    requires |p| == 5 && p[0] == Group(8, AnyHex) && p[1] == Group(4, AnyHex)
    requires p[2].size == 4 && p[3].size == 4 && p[4] == Group(12, AnyHex)
    ensures Matches(s, p) <==>
              UuidShaped(s) && LeadOk(s[14], p[2].lead) && LeadOk(s[19], p[3].lead)
  {
    if |s| == 36 {
      MatchesBySegments(s, p);
      SegmentsAreShape(s);
      assert LeadOk(s[14], Version) || LeadOk(s[14], Variant) ==> IsHexDigit(s[14]);
      assert LeadOk(s[19], Version) || LeadOk(s[19], Variant) ==> IsHexDigit(s[19]);
    } else if Matches(s, p) {
      LengthOfMatch(s, p);
    }
  }

  /** The five hex runs of a 36-character string, with the dashes between them. */
  predicate Segments(s: string)
    requires |s| == 36
  {
    HexBetween(s, 0, 8) && s[8] == '-' && HexBetween(s, 9, 13) && s[13] == '-'
    && HexBetween(s, 14, 18) && s[18] == '-' && HexBetween(s, 19, 23) && s[23] == '-'
    && HexBetween(s, 24, 36)
  }

  /** Matching a 36-character string reads it group by group. */
  lemma {:induction false} MatchesBySegments(s: string, p: seq<Group>)
    requires |s| == 36
    requires |p| == 5 && p[0] == Group(8, AnyHex) && p[1] == Group(4, AnyHex)
    requires p[2].size == 4 && p[3].size == 4 && p[4] == Group(12, AnyHex)
    ensures Matches(s, p) <==> Segments(s) && LeadOk(s[14], p[2].lead) && LeadOk(s[19], p[3].lead)
  {
    var p1, p2, p3, p4 := p[1..], p[2..], p[3..], p[4..];
    assert p1[1..] == p2 && p2[1..] == p3 && p3[1..] == p4;
    assert p1[0] == p[1] && p2[0] == p[2] && p3[0] == p[3] && p4[0] == p[4];
    var s1, s2, s3, s4 := s[9..], s[14..], s[19..], s[24..];
    assert s1[5..] == s2 && s2[5..] == s3 && s3[5..] == s4;
    assert s1[4] == s[13] && s2[4] == s[18] && s3[4] == s[23];
    assert s1[0] == s[9] && s2[0] == s[14] && s3[0] == s[19];
    GroupAt(s, 0, p[0], s);
    GroupAt(s, 9, p[1], s1);
    GroupAt(s, 14, p[2], s2);
    GroupAt(s, 19, p[3], s3);
    GroupAt(s, 24, p[4], s4);
    assert Matches(s4, p4) <==> HexBetween(s, 24, 36);
    assert Matches(s3, p3) <==> s[23] == '-' && LeadOk(s[19], p[3].lead) && HexBetween(s, 19, 23) && HexBetween(s, 24, 36);
    assert Matches(s2, p2) <==> s[18] == '-' && LeadOk(s[14], p[2].lead) && HexBetween(s, 14, 18) && Matches(s3, p3);
    assert Matches(s1, p1) <==> s[13] == '-' && HexBetween(s, 9, 13) && Matches(s2, p2);
    assert Matches(s, p) <==> s[8] == '-' && HexBetween(s, 0, 8) && Matches(s1, p1);
  }

  /** The run-by-run reading and the positional reading of 8-4-4-4-12 agree. */
  lemma SegmentsAreShape(s: string)
    requires |s| == 36
    ensures Segments(s) <==> UuidShaped(s)
  {
  }

  /** A string that matches a pattern is as long as the pattern's groups and dashes. */
  lemma {:induction false} LengthOfMatch(s: string, p: seq<Group>)
    requires |p| == 5 && p[0].size == 8 && p[1].size == 4 && p[2].size == 4 && p[3].size == 4 && p[4].size == 12
    requires Matches(s, p)
    ensures |s| == 36
  {
    var p1, p2, p3, p4 := p[1..], p[2..], p[3..], p[4..];
    assert p1[1..] == p2 && p2[1..] == p3 && p3[1..] == p4;
    var s1 := s[9..];
    assert Matches(s1, p1);
    var s2 := s1[5..];
    assert Matches(s2, p2);
    var s3 := s2[5..];
    assert Matches(s3, p3);
    var s4 := s3[5..];
    assert Matches(s4, p4);
  }

  /** The protocol's pattern accepts exactly the strings shaped 8-4-4-4-12, with no constraint on any digit. */
  lemma LooseIsShape(s: string)
    ensures Matches(s, LoosePattern) <==> UuidShaped(s)
  {
    FiveGroups(s, LoosePattern);
  }

  /** The validators' pattern is the protocol's plus a version digit 1-5 and a variant digit 8, 9, a or b. */
  lemma StrictIsShapePlusVersion(s: string)
    ensures Matches(s, StrictPattern) <==> UuidShaped(s) && VersionAndVariant(s)
  {
    FiveGroups(s, StrictPattern);
  }

  /** Every string the strict pattern accepts is accepted by the loose one, but not the other way round. */
  lemma StrictIsStricter()
    ensures forall s :: Matches(s, StrictPattern) ==> Matches(s, LoosePattern)
    ensures Matches(NilUuid, LoosePattern) && !Matches(NilUuid, StrictPattern)
  {
    forall s | Matches(s, StrictPattern) ensures Matches(s, LoosePattern) {
      StrictIsShapePlusVersion(s);
      LooseIsShape(s);
    }
    NilUuidIsLooseOnly();
  }

  lemma NilUuidIsLooseOnly()
    ensures Matches(NilUuid, LoosePattern) && !Matches(NilUuid, StrictPattern)
  {
    NilUuidShape();
    LooseIsShape(NilUuid);
    StrictIsShapePlusVersion(NilUuid);
  }

  lemma NilUuidShape()
    ensures UuidShaped(NilUuid) && !VersionAndVariant(NilUuid)
  {
    assert NilUuid[14] == '0';
  }

  /** The all-zero UUID: 8-4-4-4-12 shaped, but version 0. */
  const NilUuid: string := "00000000-0000-0000-0000-000000000000"
}
