/** The validation helpers: the `personname` rule, the JSON tag-name function,
    quote identifiers (generation and format check) and the conversion of the
    validator's violations into FieldErrors. */
module Validate {
  import opened GoErrors
  import opened Ascii

  // ---------------------------------------------------------------------------
  // The personname rule:  ^[[:upper:]]([[:alpha:]]|[[:punct:]]|[[:space:]]){0,29}$

  datatype CharClass = Upper | Alpha | Punct | Space

  predicate InClass(c: char, k: CharClass)
  {
    match k
    case Upper => IsUpper(c)
    case Alpha => IsAlpha(c)
    case Punct => IsPunct(c)
    case Space => IsSpace(c)
  }

  /** The alternation (k0|k1|...) of single-character classes. */
  predicate InAny(c: char, alts: seq<CharClass>)
  {
    exists i :: 0 <= i < |alts| && InClass(c, alts[i])
  }

  /** (alts){min,max} matching the whole of s. Every alternative matches one
      character, so each repetition consumes exactly one. */
  predicate MatchRepeat(s: string, alts: seq<CharClass>, min: nat, max: nat)
    decreases |s|
  {
    if s == [] then min == 0
    else max > 0 && InAny(s[0], alts)
         && MatchRepeat(s[1..], alts, if min == 0 then 0 else min - 1, max - 1)
  }

  const NameTailClasses: seq<CharClass> := [Alpha, Punct, Space]

  /** personNameRegex.MatchString(s) */
  predicate MatchesPersonName(s: string)
  {
    |s| > 0 && InClass(s[0], Upper) && MatchRepeat(s[1..], NameTailClasses, 0, 29)
  }

  /** (alts){0,max} matches exactly the strings of at most max characters that
      each belong to one of the alternatives. */
  lemma {:induction false} MatchRepeatIff(s: string, alts: seq<CharClass>, max: nat)
    ensures MatchRepeat(s, alts, 0, max) <==>
              |s| <= max && forall i :: 0 <= i < |s| ==> InAny(s[i], alts)
    decreases |s|
  {
    if s != [] && max > 0 {
      MatchRepeatIff(s[1..], alts, max - 1);
      if forall i :: 0 <= i < |s| ==> InAny(s[i], alts) {
        assert forall i :: 0 <= i < |s[1..]| ==> InAny(s[1..][i], alts) by {
          forall i | 0 <= i < |s[1..]| ensures InAny(s[1..][i], alts) {
            assert s[1..][i] == s[i + 1];
          }
        }
      }
      if InAny(s[0], alts) && forall i :: 0 <= i < |s[1..]| ==> InAny(s[1..][i], alts) {
        forall i | 0 <= i < |s| ensures InAny(s[i], alts) {
          if i > 0 { assert s[i] == s[1..][i - 1]; }
        }
      }
    }
  }

  /** The personname rule accepts exactly the strings of 1 to 30 characters
      whose first character is an ASCII upper-case letter and whose other
      characters are ASCII letters, punctuation or white space. */
  lemma PersonNameIff(s: string)
    ensures MatchesPersonName(s) <==>
              && 1 <= |s| <= 30
              && IsUpper(s[0])
              && forall i :: 1 <= i < |s| ==> IsAlpha(s[i]) || IsPunct(s[i]) || IsSpace(s[i])
  {
    if |s| > 0 {
      var tail := s[1..];
      MatchRepeatIff(tail, NameTailClasses, 29);
      forall i | 0 <= i < |tail|
        ensures InAny(tail[i], NameTailClasses) <==> IsAlpha(s[i + 1]) || IsPunct(s[i + 1]) || IsSpace(s[i + 1])
      {
        if IsAlpha(tail[i]) { assert InClass(tail[i], NameTailClasses[0]); }
        if IsPunct(tail[i]) { assert InClass(tail[i], NameTailClasses[1]); }
        if IsSpace(tail[i]) { assert InClass(tail[i], NameTailClasses[2]); }
      }
      if forall i :: 1 <= i < |s| ==> IsAlpha(s[i]) || IsPunct(s[i]) || IsSpace(s[i]) {
        assert forall i :: 0 <= i < |tail| ==> InAny(tail[i], NameTailClasses) by {
          forall i | 0 <= i < |tail| ensures InAny(tail[i], NameTailClasses) {
            assert IsAlpha(s[i + 1]) || IsPunct(s[i + 1]) || IsSpace(s[i + 1]);
          }
        }
      }
      if forall i :: 0 <= i < |tail| ==> InAny(tail[i], NameTailClasses) {
        forall i | 1 <= i < |s| ensures IsAlpha(s[i]) || IsPunct(s[i]) || IsSpace(s[i]) {
          assert InAny(tail[i - 1], NameTailClasses);
        }
      }
    }
  }

  /** The names the unit tests accept, and every 30-character name that starts
      with an upper-case letter and goes on in letters. */
  lemma PersonNameAccepts(long: string)
    requires |long| == 30 && IsUpper(long[0])
    requires forall i :: 1 <= i < |long| ==> IsAlpha(long[i])
    ensures MatchesPersonName("John")
    ensures MatchesPersonName("John doe")
    ensures MatchesPersonName("John-doe")
    ensures MatchesPersonName("A")
    ensures MatchesPersonName(long)
  {
    PersonNameIff("John");
    PersonNameIff("John doe");
    PersonNameIff("John-doe");
    PersonNameIff("A");
    PersonNameIff(long);
  }

  /** The names the unit tests reject: a lower-case start, a digit, the empty
      string and any 31-character name. */
  lemma PersonNameRejects(long: string)
    requires |long| == 31
    ensures !MatchesPersonName("john")
    ensures !MatchesPersonName("John1")
    ensures !MatchesPersonName("")
    ensures !MatchesPersonName(long)
  {
    PersonNameIff("john");
    PersonNameIff("John1");
    assert "John1"[4] == '1';
    PersonNameIff("");
    PersonNameIff(long);
  }

  // ---------------------------------------------------------------------------
  // The tag-name function registered with the validator

  /** strings.SplitN(s, string(sep), 2)[0]: the text before the first sep, or
      all of s when there is none. */
  function FirstField(s: string, sep: char): (head: string)
    ensures sep !in head
    ensures head <= s
    ensures |head| < |s| ==> s[|head|] == sep
  {
    if s == [] || s[0] == sep then [] else [s[0]] + FirstField(s[1..], sep)
  }

  /** The first field is all of a text that holds no separator. */
  lemma FirstFieldWhole(s: string, sep: char)
    requires sep !in s
    ensures FirstField(s, sep) == s
  {
    assert forall i :: 0 <= i < |s| ==> s[i] != sep;
  }

  /** The first field ends at the first separator. */
  lemma FirstFieldStops(a: string, b: string, sep: char)
    requires sep !in a
    ensures FirstField(a + [sep] + b, sep) == a
  {
    var s := a + [sep] + b;
    var head := FirstField(s, sep);
    assert forall i :: 0 <= i < |a| ==> s[i] == a[i] && a[i] != sep;
    assert s[|a|] == sep;
    assert forall i :: 0 <= i < |head| ==> head[i] != sep;
    assert |head| == |a|;
  }

  /** The wire name of a struct field given its json tag: the part before the
      first comma, or "" when that part is "-". */
  function TagName(jsonTag: string): (name: string)
    ensures ',' !in name
    ensures name != "" ==> name <= jsonTag && (|name| == |jsonTag| || jsonTag[|name|] == ',')
  {
    var name := FirstField(jsonTag, ',');
    if name == "-" then "" else name
  }

  /** The tag-name function gives "" exactly for a tag that is empty, starts
      with a comma, or is "-" alone or before a comma. */
  lemma TagNameEmptyIff(jsonTag: string)
    ensures TagName(jsonTag) == "" <==>
              || jsonTag == ""
              || jsonTag[0] == ','
              || jsonTag == "-"
              || (|jsonTag| >= 2 && jsonTag[..2] == "-,")
  {
    var head := FirstField(jsonTag, ',');
    if jsonTag == "" || jsonTag[0] == ',' {
    } else if jsonTag == "-" {
      FirstFieldWhole(jsonTag, ',');
    } else if |jsonTag| >= 2 && jsonTag[..2] == "-," {
      assert jsonTag == "-" + [','] + jsonTag[2..];
      FirstFieldStops("-", jsonTag[2..], ',');
    } else {
      assert head == [jsonTag[0]] + FirstField(jsonTag[1..], ',');
      if jsonTag[0] == '-' {
        assert |jsonTag| >= 2 && jsonTag[1] != ',';
        assert |FirstField(jsonTag[1..], ',')| >= 1;
      }
    }
  }

  /** A tag without options names the field by the whole tag. */
  lemma TagNamePlain(tag: string)
    requires ',' !in tag && tag != "-"
    ensures TagName(tag) == tag
  {
    FirstFieldWhole(tag, ',');
  }

  /** Options after the first comma (such as "omitempty") do not change the
      wire name. */
  lemma TagNameIgnoresOptions(name: string, options: string)
    requires ',' !in name && name != "-"
    ensures TagName(name + [','] + options) == name
  {
    FirstFieldStops(name, options, ',');
  }

  /** A field tagged "-" has no wire name. */
  lemma TagNameSkipExamples()
    ensures TagName("-") == ""
    ensures TagName("-,") == ""
  {
    FirstFieldWhole("-", ',');
    assert "-," == "-" + [','] + "";
    FirstFieldStops("-", "", ',');
  }

  // ---------------------------------------------------------------------------
  // Identifiers

  newtype byte = x: int | 0 <= x < 256

  /** The positions of the four hyphens in the 36-character form. */
  predicate IsHyphenPosition(i: int)
  {
    i == 8 || i == 13 || i == 18 || i == 23
  }

  /** The textual form of a UUID (section 3 of RFC 4122): 32 hexadecimal
      digits in groups of 8, 4, 4, 4 and 12, separated by hyphens. */
  predicate IsUUID(s: string)
  {
    |s| == 36 && forall i :: 0 <= i < 36 ==>
      if IsHyphenPosition(i) then s[i] == '-' else IsHexDigit(s[i])
  }

  const ErrInvalidID: Error := Sentinel(ValidateInvalidID)

  /** CheckID: nil when the text parses as a UUID, ErrInvalidID otherwise. */
  function CheckID(id: string): (err: Option<Error>)
    ensures err.None? <==> IsUUID(id)
    ensures err.Some? ==> err.value == ErrInvalidID
  {
    if IsUUID(id) then None else Some(ErrInvalidID)
  }

  const LowerHexDigits: string := "0123456789abcdef"

  function HexByte(b: byte): string
  {
    [LowerHexDigits[b / 16], LowerHexDigits[b % 16]]
  }

  /** Bytes rendered as lower-case hexadecimal, two digits per byte. */
  function Hex(bs: seq<byte>): (s: string)
    ensures |s| == 2 * |bs|
    ensures forall i :: 0 <= i < |s| ==> IsHexDigit(s[i])
  {
    if bs == [] then [] else HexByte(bs[0]) + Hex(bs[1..])
  }

  /** GenerateID: the canonical text of a UUID whose 16 bytes are drawn from
      the random source; the bytes are the parameter here. */
  function GenerateID(random: seq<byte>): (id: string)
    requires |random| == 16
    ensures |id| == 36
    ensures id[8] == '-' && id[13] == '-' && id[18] == '-' && id[23] == '-'
  {
    Hex(random[..4]) + "-" + Hex(random[4..6]) + "-" + Hex(random[6..8]) + "-"
      + Hex(random[8..10]) + "-" + Hex(random[10..])
  }

  /** Every generated identifier passes CheckID. */
  lemma GeneratedIDIsValid(random: seq<byte>)
    requires |random| == 16
    ensures CheckID(GenerateID(random)).None?
  {
    var a, b, c := Hex(random[..4]), Hex(random[4..6]), Hex(random[6..8]);
    var d, e := Hex(random[8..10]), Hex(random[10..]);
    var s := GenerateID(random);
    assert s == a + "-" + b + "-" + c + "-" + d + "-" + e;
    forall i | 0 <= i < 36
      ensures if IsHyphenPosition(i) then s[i] == '-' else IsHexDigit(s[i])
    {
      if i < 8 { assert s[i] == a[i]; }
      else if 8 < i < 13 { assert s[i] == b[i - 9]; }
      else if 13 < i < 18 { assert s[i] == c[i - 14]; }
      else if 18 < i < 23 { assert s[i] == d[i - 19]; }
      else if 23 < i { assert s[i] == e[i - 24]; }
    }
  }

  /** The sixteen digits are distinct, so a byte's two digits determine it. */
  lemma HexByteInjective(x: byte, y: byte)
    requires HexByte(x) == HexByte(y)
    ensures x == y
  {
    assert forall i, j :: 0 <= i < j < 16 ==> LowerHexDigits[i] != LowerHexDigits[j];
    assert LowerHexDigits[x / 16] == LowerHexDigits[y / 16];
    assert LowerHexDigits[x % 16] == LowerHexDigits[y % 16];
  }

  /** Equally long byte strings with the same hexadecimal text are equal. */
  lemma {:induction false} HexInjective(a: seq<byte>, b: seq<byte>)
    requires |a| == |b| && Hex(a) == Hex(b)
    ensures a == b
  {
    if a != [] {
      assert Hex(a)[..2] == HexByte(a[0]) && Hex(b)[..2] == HexByte(b[0]);
      assert Hex(a)[2..] == Hex(a[1..]) && Hex(b)[2..] == Hex(b[1..]);
      HexByteInjective(a[0], b[0]);
      HexInjective(a[1..], b[1..]);
      assert a == [a[0]] + a[1..] && b == [b[0]] + b[1..];
    }
  }

  /** The five groups of a generated identifier are the hexadecimal text of
      the five runs of random bytes. */
  lemma GeneratedIDGroups(random: seq<byte>)
    requires |random| == 16
    ensures GenerateID(random)[..8] == Hex(random[..4])
    ensures GenerateID(random)[9..13] == Hex(random[4..6])
    ensures GenerateID(random)[14..18] == Hex(random[6..8])
    ensures GenerateID(random)[19..23] == Hex(random[8..10])
    ensures GenerateID(random)[24..] == Hex(random[10..])
  {
    var a, b, c := Hex(random[..4]), Hex(random[4..6]), Hex(random[6..8]);
    var d, e := Hex(random[8..10]), Hex(random[10..]);
    var s := GenerateID(random);
    assert s == a + "-" + b + "-" + c + "-" + d + "-" + e;
    assert s[..8] == a;
    assert s[9..13] == b;
    assert s[14..18] == c;
    assert s[19..23] == d;
    assert s[24..] == e;
  }

  /** Different 16-byte UUID values render to different text, so two IDs
      are equal only when the UUIDs behind them are. */
  lemma GenerateIDInjective(a: seq<byte>, b: seq<byte>)
    requires |a| == 16 && |b| == 16
    requires GenerateID(a) == GenerateID(b)
    ensures a == b
  {
    GeneratedIDGroups(a);
    GeneratedIDGroups(b);
    HexInjective(a[..4], b[..4]);
    HexInjective(a[4..6], b[4..6]);
    HexInjective(a[6..8], b[6..8]);
    HexInjective(a[8..10], b[8..10]);
    HexInjective(a[10..], b[10..]);
    assert a == a[..4] + a[4..6] + a[6..8] + a[8..10] + a[10..];
    assert b == b[..4] + b[4..6] + b[6..8] + b[8..10] + b[10..];
  }

  lemma CheckIDRejectsBadFormat()
    ensures CheckID("badFormat") == Some(ErrInvalidID)
  {
  }

  // ---------------------------------------------------------------------------
  // Check: the validator's violations as FieldErrors

  /** One violation the validator reports: the field's wire name and the
      translated message. */
  datatype Violation = Violation(field: string, message: string)

  /** What validate.Struct returns: nil, a ValidationErrors list, or another
      error (for instance when the value is not a struct). */
  datatype StructCheck = Passed | Invalid(violations: seq<Violation>) | Failed(err: Error)

  /** Check: nil when nothing is violated; another error passed through
      unchanged; otherwise a FieldErrors with one entry per violation, in the
      validator's order. */
  method Check(outcome: StructCheck) returns (err: Option<Error>)
    ensures outcome.Passed? ==> err.None?
    ensures outcome.Failed? ==> err == Some(outcome.err)
    ensures outcome.Invalid? ==>
              && err.Some? && err.value.FieldErrors?
              && |err.value.fields| == |outcome.violations|
              && forall i :: 0 <= i < |outcome.violations| ==>
                   err.value.fields[i] == FieldError(outcome.violations[i].field, outcome.violations[i].message)
  {
    match outcome
    case Passed =>
      return None;
    case Failed(e) =>
      return Some(e);
    case Invalid(verrors) =>
      var fields: seq<FieldError> := [];
      for n := 0 to |verrors|
        invariant |fields| == n
        invariant forall i :: 0 <= i < n ==> fields[i] == FieldError(verrors[i].field, verrors[i].message)
      {
        var field := FieldError(verrors[n].field, verrors[n].message);
        fields := fields + [field];
      }
      return Some(FieldErrors(fields));
  }
}
