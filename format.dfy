/** `formatVariation` of app.js: split on "-", upper-case the first character
    of each part, join with " ". */
module Format {
  import opened Common

  /** `toUpperCase` on one character, for the letters a-z. */
  function ToUpper(c: char): (u: char)
    ensures 'a' <= c <= 'z' ==> 'A' <= u <= 'Z' && u as int == c as int - 32
    ensures !('a' <= c <= 'z') ==> u == c
  {
    if 'a' <= c <= 'z' then (c as int - 'a' as int + 'A' as int) as char else c
  }

  /** `value.split("-")`: the pieces between hyphens, at least one. */
  function SplitOnHyphen(s: string): (parts: seq<string>)
    ensures |parts| >= 1
  {
    if s == [] then [[]]
    else if s[0] == '-' then [[]] + SplitOnHyphen(s[1..])
    else
      var rest := SplitOnHyphen(s[1..]);
      [[s[0]] + rest[0]] + rest[1..]
  }

  /** `part.charAt(0).toUpperCase() + part.slice(1)`. */
  function Capitalize(part: string): (r: string)
    ensures |r| == |part|
    ensures part != [] ==> r[0] == ToUpper(part[0]) && r[1..] == part[1..]
  {
    if part == [] then [] else [ToUpper(part[0])] + part[1..]
  }

  function CapitalizeAll(parts: seq<string>): (r: seq<string>)
    ensures |r| == |parts|
    ensures forall i :: 0 <= i < |parts| ==> r[i] == Capitalize(parts[i])
  {
    if parts == [] then [] else [Capitalize(parts[0])] + CapitalizeAll(parts[1..])
  }

  /** `formatVariation(value)`: it agrees with the character-wise
      transformation `Spaced` started at the beginning of a part. */
  function FormatVariation(value: string): (shown: string)
    ensures shown == Spaced(value, true)
  {
    JoinedPartsAreSpaced(value, true);
    Join(CapitalizeAll(SplitOnHyphen(value)), " ")
  }

  /** The same transformation character by character: a hyphen becomes a
      space, a character at the start of a part (`atStart`) is upper-cased,
      every other character is kept. */
  function Spaced(s: string, atStart: bool): (r: string)
    ensures |r| == |s|
  {
    if s == [] then []
    else if s[0] == '-' then [' '] + Spaced(s[1..], true)
    else [if atStart then ToUpper(s[0]) else s[0]] + Spaced(s[1..], false)
  }

  lemma JoinCons(c: char, part: string, parts: seq<string>)
    ensures Join([[c] + part] + parts, " ") == [c] + Join([part] + parts, " ")
  {
    if parts != [] {
      assert ([[c] + part] + parts)[1..] == parts;
      assert ([part] + parts)[1..] == parts;
    }
  }

  /** Splitting, capitalizing and joining is the character-wise transformation;
      `capitalizeFirst` says whether the first part is capitalized. */
  lemma {:induction false} JoinedPartsAreSpaced(s: string, capitalizeFirst: bool)
    ensures var parts := SplitOnHyphen(s);
      Join((if capitalizeFirst then [Capitalize(parts[0])] else [parts[0]]) + CapitalizeAll(parts[1..]), " ")
        == Spaced(s, capitalizeFirst)
    decreases |s|
  {
    var parts := SplitOnHyphen(s);
    if s == [] {
    } else if s[0] == '-' {
      var tail := SplitOnHyphen(s[1..]);
      assert parts == [[]] + tail;
      JoinedPartsAreSpaced(s[1..], true);
      assert CapitalizeAll(tail) == [Capitalize(tail[0])] + CapitalizeAll(tail[1..]);
      assert Capitalize([]) == [];
      var capTail := CapitalizeAll(tail);
      assert parts[1..] == tail;
      assert Join([[]] + capTail, " ") == [] + " " + Join(capTail, " ") by {
        assert ([[]] + capTail)[1..] == capTail;
      }
    } else {
      var tail := SplitOnHyphen(s[1..]);
      assert parts == [[s[0]] + tail[0]] + tail[1..];
      JoinedPartsAreSpaced(s[1..], false);
      var first := if capitalizeFirst then ToUpper(s[0]) else s[0];
      assert (if capitalizeFirst then Capitalize(parts[0]) else parts[0]) == [first] + tail[0] by {
        assert ([s[0]] + tail[0])[1..] == tail[0];
      }
      JoinCons(first, tail[0], CapitalizeAll(tail[1..]));
    }
  }

  /** `formatVariation` keeps the length, turns each "-" into " ", upper-cases
      the first character of each part and keeps every other character. */
  lemma FormatVariationCharacters(value: string)
    ensures |FormatVariation(value)| == |value|
    ensures forall i {:trigger FormatVariation(value)[i]} :: 0 <= i < |value| ==>
      FormatVariation(value)[i] ==
        if value[i] == '-' then ' '
        else if i == 0 || value[i - 1] == '-' then ToUpper(value[i])
        else value[i]
  {
    var parts := SplitOnHyphen(value);
    JoinedPartsAreSpaced(value, true);
    assert CapitalizeAll(parts) == [Capitalize(parts[0])] + CapitalizeAll(parts[1..]);
    assert FormatVariation(value) == Spaced(value, true);
    SpacedCharacters(value, true);
    forall i | 0 <= i < |value|
      ensures FormatVariation(value)[i] ==
        if value[i] == '-' then ' '
        else if i == 0 || value[i - 1] == '-' then ToUpper(value[i])
        else value[i]
    {
      assert Spaced(value, true)[i] ==
        if value[i] == '-' then ' '
        else if (i == 0 && true) || (i > 0 && value[i - 1] == '-') then ToUpper(value[i])
        else value[i];
    }
  }

  lemma {:induction false} SpacedCharacters(s: string, atStart: bool)
    ensures forall i {:trigger Spaced(s, atStart)[i]} :: 0 <= i < |s| ==>
      Spaced(s, atStart)[i] ==
        if s[i] == '-' then ' '
        else if (i == 0 && atStart) || (i > 0 && s[i - 1] == '-') then ToUpper(s[i])
        else s[i]
    decreases |s|
  {
    if s != [] {
      var next := s[0] == '-';
      SpacedCharacters(s[1..], next);
      assert Spaced(s, atStart) == [Spaced(s, atStart)[0]] + Spaced(s[1..], next);
      forall i | 0 <= i < |s|
        ensures Spaced(s, atStart)[i] ==
          if s[i] == '-' then ' '
          else if (i == 0 && atStart) || (i > 0 && s[i - 1] == '-') then ToUpper(s[i])
          else s[i]
      {
        if i > 0 {
        assert Spaced(s, atStart)[i] == Spaced(s[1..], next)[i - 1];
        assert s[1..][i - 1] == s[i];
        assert (i - 1 == 0 && next) || (i - 1 > 0 && s[1..][i - 2] == '-') <==> s[i - 1] == '-';
        }
      }
    }
  }

  /** "advanced-tuck" is shown as "Advanced Tuck". */
  lemma AdvancedTuckExample(value: string)
    requires value == "advanced-tuck"
    ensures FormatVariation(value) == "Advanced Tuck"
  {
    var shown := FormatVariation(value);
    FormatVariationCharacters(value);
    assert |shown| == |"Advanced Tuck"|;
    forall i | 0 <= i < |shown| ensures shown[i] == "Advanced Tuck"[i] {
    }
  }
}
