/** The errors a G-code cursor raises (src/CNCPy/Exceptions.py), the verbatim
    messages it raises them with, and the outcome of a cursor call: it either
    returns normally or raises one of these errors. */
module Exceptions {

  // The six messages, verbatim, assembled from the parts they share.
  const Threshold: string := " 30 degrees."
  const HeatingTail: string := " cannot be heated below" + Threshold
  const ExtruderHeatingError: string := "Extruder" + HeatingTail
  const BedHeatingError: string := "Bed" + HeatingTail
  const BedSize: string := " bed size."
  const XSubceedSideError: string := "X has " + "subceeded" + BedSize
  const XSuperceedSideError: string := "X has " + "superceeded" + BedSize
  const YSubceedSideError: string := "Y has " + "subceeded" + BedSize
  // The misspelling is the library's own.
  const YSuperceedSideError: string := "Y has " + "superceede" + BedSize

  /** The two exception classes of the library, plus the two Python built-in
      errors the cursor can run into: an attribute that was never assigned,
      and a write to a file object that has been closed. */
  datatype Error =
    | GcodeValueError(message: string)
    | GcodeCoordinateError(message: string)
    | AttributeError(attribute: string)
    | ClosedFileError

  /** What a cursor call does: return normally, or raise `error`. */
  datatype Outcome = Ok | Raised(error: Error)

  /** Which heat check failed, by thermal zone. */
  datatype Zone = Extruder | Bed

  /** Which side of the bed a coordinate left. */
  datatype Axis = X | Y
  datatype Side = Subceed | Superceed

  // ---------------------------------------------------------------------
  // Text helpers

  predicate StartsWith(s: string, prefix: string) {
    |prefix| <= |s| && s[..|prefix|] == prefix
  }

  predicate EndsWith(s: string, suffix: string) {
    |suffix| <= |s| && s[|s| - |suffix|..] == suffix
  }

  /** A concatenation starts with its left part and ends with its right. */
  lemma Affixes(a: string, b: string)
    ensures StartsWith(a + b, a) && EndsWith(a + b, b)
    ensures (a + b)[|a|..] == b
  {
    assert (a + b)[..|a|] == a;
    assert (a + b)[|a|..] == b;
  }

  /** Two prefixes that differ at a position cannot both open a string. */
  lemma PrefixesDiffer(s: string, p: string, q: string, i: nat)
    requires StartsWith(s, p) && i < |p| && i < |q| && p[i] != q[i]
    ensures !StartsWith(s, q)
  {
    assert s[..|p|][i] == s[i];
  }

  /** The layout shared by the two heating messages: the zone's name, then
      the threshold sentence. */
  lemma HeatingShape(name: string, m: string)
    requires m == name + HeatingTail
    ensures StartsWith(m, name) && EndsWith(m, Threshold)
  {
    Affixes(name, HeatingTail);
    assert m == (name + " cannot be heated below") + Threshold;
    Affixes(name + " cannot be heated below", Threshold);
  }

  lemma ExtruderMessageShape()
    ensures StartsWith(ExtruderHeatingError, "Extruder") && !StartsWith(ExtruderHeatingError, "Bed")
    ensures EndsWith(ExtruderHeatingError, Threshold)
  {
    HeatingShape("Extruder", ExtruderHeatingError);
    PrefixesDiffer(ExtruderHeatingError, "Extruder", "Bed", 0);
  }

  lemma BedMessageShape()
    ensures StartsWith(BedHeatingError, "Bed") && !StartsWith(BedHeatingError, "Extruder")
    ensures EndsWith(BedHeatingError, Threshold)
  {
    HeatingShape("Bed", BedHeatingError);
    PrefixesDiffer(BedHeatingError, "Bed", "Extruder", 0);
  }

  /** The heating message raised for a zone: it opens with the zone's name
      and closes with the 30-degree threshold the check uses. */
  function HeatingMessage(zone: Zone): (m: string)
    ensures EndsWith(m, Threshold)
    ensures zone == Extruder <==> StartsWith(m, "Extruder")
    ensures zone == Bed <==> StartsWith(m, "Bed")
  {
    match zone
    case Extruder =>
      ExtruderMessageShape();
      ExtruderHeatingError
    case Bed =>
      BedMessageShape();
      BedHeatingError
  }

  /** The layout shared by the four coordinate messages: a six-character
      head naming the axis, a word, and " bed size.". */
  lemma SideShape(head: string, word: string, m: string)
    requires |head| == 6 && m == head + word + BedSize
    ensures StartsWith(m, head) && EndsWith(m, BedSize)
    ensures m[6..] == word + BedSize && StartsWith(m[6..], word)
  {
    assert m == head + (word + BedSize);
    Affixes(head, word + BedSize);
    Affixes(word, BedSize);
    Affixes(head + word, BedSize);
  }

  lemma XSubceedShape()
    ensures StartsWith(XSubceedSideError, "X has ") && EndsWith(XSubceedSideError, BedSize)
    ensures StartsWith(XSubceedSideError[6..], "subceeded") && !StartsWith(XSubceedSideError[6..], "superceede")
  {
    SideShape("X has ", "subceeded", XSubceedSideError);
    PrefixesDiffer(XSubceedSideError[6..], "subceeded", "superceede", 2);
  }

  lemma XSuperceedShape()
    ensures StartsWith(XSuperceedSideError, "X has ") && EndsWith(XSuperceedSideError, BedSize)
    ensures StartsWith(XSuperceedSideError[6..], "superceede") && !StartsWith(XSuperceedSideError[6..], "subceeded")
  {
    SideShape("X has ", "superceeded", XSuperceedSideError);
    assert "superceeded" == "superceede" + "d";
    Affixes("superceede", "d");
    PrefixesDiffer(XSuperceedSideError[6..], "superceeded", "subceeded", 2);
  }

  lemma YSubceedShape()
    ensures StartsWith(YSubceedSideError, "Y has ") && EndsWith(YSubceedSideError, BedSize)
    ensures StartsWith(YSubceedSideError[6..], "subceeded") && !StartsWith(YSubceedSideError[6..], "superceede")
  {
    SideShape("Y has ", "subceeded", YSubceedSideError);
    PrefixesDiffer(YSubceedSideError[6..], "subceeded", "superceede", 2);
  }

  lemma YSuperceedShape()
    ensures StartsWith(YSuperceedSideError, "Y has ") && EndsWith(YSuperceedSideError, BedSize)
    ensures StartsWith(YSuperceedSideError[6..], "superceede") && !StartsWith(YSuperceedSideError[6..], "subceeded")
  {
    SideShape("Y has ", "superceede", YSuperceedSideError);
    PrefixesDiffer(YSuperceedSideError[6..], "superceede", "subceeded", 2);
  }

  /** The head a coordinate message opens with: the axis letter and " has ". */
  function AxisHead(axis: Axis): string {
    match axis
    case X => "X has "
    case Y => "Y has "
  }

  /** The coordinate message raised when `axis` leaves the bed on `side`:
      it opens with the axis letter and " has ", closes with " bed size.",
      and goes on with "subceeded" for a coordinate below zero and with
      "superceede" for one beyond the bed. */
  function SideMessage(axis: Axis, side: Side): (m: string)
    ensures 6 < |m| && StartsWith(m, AxisHead(axis)) && EndsWith(m, BedSize)
    ensures side == Subceed <==> StartsWith(m[6..], "subceeded")
    ensures side == Superceed <==> StartsWith(m[6..], "superceede")
  {
    match (axis, side)
    case (X, Subceed) =>
      XSubceedShape();
      XSubceedSideError
    case (X, Superceed) =>
      XSuperceedShape();
      XSuperceedSideError
    case (Y, Subceed) =>
      YSubceedShape();
      YSubceedSideError
    case (Y, Superceed) =>
      YSuperceedShape();
      YSuperceedSideError
  }

  /** The two heating messages name their zone, so they differ. */
  lemma HeatingMessagesDistinct(z1: Zone, z2: Zone)
    ensures HeatingMessage(z1) == HeatingMessage(z2) <==> z1 == z2
  {
    assert ExtruderHeatingError[0] != BedHeatingError[0];
  }

  /** The four coordinate messages tell axis and side apart: equal messages
      mean the same axis and the same side. */
  lemma SideMessagesDistinct(a1: Axis, s1: Side, a2: Axis, s2: Side)
    ensures SideMessage(a1, s1) == SideMessage(a2, s2) <==> a1 == a2 && s1 == s2
  {
    if a1 != a2 {
      assert AxisHead(a1)[0] != AxisHead(a2)[0];
    }
  }

  /** The Y-overflow message is not the X one with its axis letter changed:
      it is the only message with the misspelling, while the underflow pair
      differs in the axis letter alone. */
  lemma YOverflowMessageMisspelled()
    ensures XSubceedSideError[1..] == YSubceedSideError[1..]
    ensures XSuperceedSideError[1..] != YSuperceedSideError[1..]
    ensures |YSuperceedSideError| + 1 == |XSuperceedSideError|
  {
  }
}
