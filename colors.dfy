/**
 * Room colours (`get_room_color` in utils.py): a room is coloured by its
 * base type, the name with its numbers taken out, so "Bathroom 1" and
 * "Bathroom 2" are both coloured as "Bathroom".
 */
module Colors {
  import opened Text

  /** The fallback colour for a room type the table does not know. */
  const White: string := "#FFFFFF"

  /** `ROOM_COLORS`: base room type to fill colour. */
  const RoomColors: map<string, string> := map[
    "Living Room" := "#F5F0E8",
    "Kitchen" := "#FFD580",
    "Bedroom" := "#AEC6CF",
    "Bathroom" := "#FFB6C1",
    "Hallway" := "#E6E6FA",
    "Storage" := "#D3D3D3",
    "Dining Room" := "#D3A760",
    "Utility" := "#C2EABD",
    "Garage" := "#D4C5B0",
    "Backyard" := "#90C695"
  ]

  /** `c.isdigit()`: the ASCII digits and the superscripts one, two and three. */
  predicate IsDigit(c: char)
    ensures IsDigit(c) ==> !IsSpace(c)
  {
    ('0' <= c <= '9') || c == '\U{B9}' || c == '\U{B2}' || c == '\U{B3}'
  }

  /** `s` has no digit anywhere. */
  predicate DigitFree(s: string) {
    forall i :: 0 <= i < |s| ==> !IsDigit(s[i])
  }

  /** `"".join([c for c in s if not c.isdigit()])`: `s` with every digit removed. */
  function RemoveDigits(s: string): (r: string)
    ensures DigitFree(r)
    ensures |r| <= |s|
    decreases |s|
  {
    if s == [] then []
    else (if IsDigit(s[0]) then [] else [s[0]]) + RemoveDigits(s[1..])
  }

  /** Removing digits piece by piece is removing them from the whole. */
  lemma {:induction false} RemoveDigitsAppend(a: string, b: string)
    ensures RemoveDigits(a + b) == RemoveDigits(a) + RemoveDigits(b)
    decreases |a|
  {
    if a != [] {
      assert (a + b)[1..] == a[1..] + b;
      RemoveDigitsAppend(a[1..], b);
    } else {
      assert a + b == b;
    }
  }

  /** A string without digits is left as it is. */
  lemma {:induction false} RemoveDigitsOfDigitFree(s: string)
    requires DigitFree(s)
    ensures RemoveDigits(s) == s
    decreases |s|
  {
    if s != [] {
      RemoveDigitsOfDigitFree(s[1..]);
    }
  }

  /** The base name: digits removed anywhere, then white space trimmed at both ends. */
  function BaseName(name: string): (base: string)
    ensures DigitFree(base) && IsStripped(base)
  {
    var r := RemoveDigits(name);
    StripKeepsDigitFree(r);
    Strip(r)
  }

  /** Trimming white space cannot bring a digit back. */
  lemma StripKeepsDigitFree(s: string)
    requires DigitFree(s)
    ensures DigitFree(Strip(s))
  {
    StripIsSlice(s);
    var lo := LeadingSpace(s);
    assert forall i :: 0 <= i < |Strip(s)| ==> Strip(s)[i] == s[lo + i];
  }

  /** Computing the base name of a base name gives it back. */
  lemma BaseNameIdempotent(name: string)
    ensures BaseName(BaseName(name)) == BaseName(name)
  {
    var base := BaseName(name);
    RemoveDigitsOfDigitFree(base);
    StripStripped(base);
  }

  /**
   * `ROOM_COLORS.get(base_name, "#FFFFFF")`: the table's colour for the
   * base name, white for an unknown one; never anything else.
   */
  function GetRoomColor(name: string): (color: string)
    ensures BaseName(name) in RoomColors ==> color == RoomColors[BaseName(name)]
    ensures BaseName(name) !in RoomColors ==> color == White
  {
    var base := BaseName(name);
    if base in RoomColors then RoomColors[base] else White
  }

  /** The table knows ten room types, and none of them is coloured white. */
  lemma TableRoomTypes()
    ensures RoomColors.Keys == {"Living Room", "Kitchen", "Bedroom", "Bathroom", "Hallway",
                                "Storage", "Dining Room", "Utility", "Garage", "Backyard"}
    ensures White !in RoomColors.Values
  {
  }

  /** A room is drawn white exactly when the table does not know its base type. */
  lemma WhiteMeansUnknownType(name: string)
    ensures GetRoomColor(name) == White <==> BaseName(name) !in RoomColors
  {
    TableRoomTypes();
  }

  /** Every room gets one of the table's colours or the white fallback. */
  lemma ColorIsFromTable(name: string)
    ensures GetRoomColor(name) in RoomColors.Values || GetRoomColor(name) == White
  {
  }

  /** A room named by its base type alone gets the same colour as the numbered one. */
  lemma ColorOfBaseName(name: string)
    ensures GetRoomColor(BaseName(name)) == GetRoomColor(name)
  {
    BaseNameIdempotent(name);
  }

  /** Inserting a digit anywhere in a name leaves its colour unchanged. */
  lemma ColorIgnoresDigits(prefix: string, d: char, suffix: string)
    requires IsDigit(d)
    ensures GetRoomColor(prefix + [d] + suffix) == GetRoomColor(prefix + suffix)
  {
    assert RemoveDigits(prefix + [d] + suffix) == RemoveDigits(prefix + suffix) by {
      RemoveDigitsAppend(prefix + [d], suffix);
      RemoveDigitsAppend(prefix, [d]);
      RemoveDigitsAppend(prefix, suffix);
      assert RemoveDigits([d]) == [];
    }
  }

  /** Removing the digit from "Bathroom " followed by a digit leaves "Bathroom ". */
  lemma NumberedBathroomDigitsRemoved(d: char)
    requires IsDigit(d)
    ensures RemoveDigits("Bathroom " + [d]) == "Bathroom "
  {
    var padded := "Bathroom ";
    assert DigitFree(padded);
    RemoveDigitsOfDigitFree(padded);
    RemoveDigitsAppend(padded, [d]);
    assert RemoveDigits([d]) == [];
  }

  /** Trimming "Bathroom " leaves "Bathroom". */
  lemma PaddedBathroomStripped()
    ensures Strip("Bathroom ") == "Bathroom"
  {
    var padded := "Bathroom ";
    assert TrimStart(padded) == padded;
    assert padded[..|padded| - 1] == "Bathroom";
    assert TrimEnd(padded) == "Bathroom";
  }

  /** "Bathroom " followed by a digit has the base name "Bathroom". */
  lemma NumberedBathroomBase(d: char)
    requires IsDigit(d)
    ensures BaseName("Bathroom " + [d]) == "Bathroom"
  {
    NumberedBathroomDigitsRemoved(d);
    PaddedBathroomStripped();
  }

  /** A name whose base is "Bathroom" gets the bathroom colour. */
  lemma BathroomColor(name: string)
    requires BaseName(name) == "Bathroom"
    ensures GetRoomColor(name) == RoomColors["Bathroom"] == "#FFB6C1"
  {
  }

  /**
   * The example of the doc comment: "Bathroom 1", "Bathroom 2" and any other
   * "Bathroom " followed by one digit are coloured as "Bathroom".
   */
  lemma NumberedBathroomsShareColor(d: char)
    requires IsDigit(d)
    ensures GetRoomColor("Bathroom " + [d]) == RoomColors["Bathroom"]
  {
    NumberedBathroomBase(d);
    BathroomColor("Bathroom " + [d]);
  }
}
