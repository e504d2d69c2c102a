/**
 * Constellation index: the flat satellite index used by every per-satellite list of
 * the GNSS engine, and its mapping to and from identifiers such as "G05" or "PG05".
 */
module Constellation {
  import opened Wrappers
  import opened Decimal

  const GpsSatNum: nat := 32
  const GlonassSatNum: nat := 26
  const GalileoSatNum: nat := 36
  const BeidouSatNum: nat := 16
  const QzssSatNum: nat := 7

  /** An index is the satellite number plus the bias of its constellation. */
  const GpsIndexBias: int := -1
  const GlonassIndexBias: int := GpsIndexBias + GpsSatNum
  const GalileoIndexBias: int := GlonassIndexBias + GlonassSatNum
  const BeidouIndexBias: int := GalileoIndexBias + GalileoSatNum
  const QzssIndexBias: int := BeidouIndexBias + BeidouSatNum

  const AllSatNum: nat := GpsSatNum + GlonassSatNum + GalileoSatNum + BeidouSatNum + QzssSatNum

  /** INT32_MAX, returned for an identifier whose constellation letter is unknown. */
  const Int32Max: int := 0x7fff_ffff

  function TagBias(tag: char): Option<int>
  {
    match tag
    case 'G' => Some(GpsIndexBias)
    case 'R' => Some(GlonassIndexBias)
    case 'E' => Some(GalileoIndexBias)
    case 'C' => Some(BeidouIndexBias)
    case 'J' => Some(QzssIndexBias)
    case _ => None
  }

  function SatCount(tag: char): nat
  {
    match tag
    case 'G' => GpsSatNum
    case 'R' => GlonassSatNum
    case 'E' => GalileoSatNum
    case 'C' => BeidouSatNum
    case 'J' => QzssSatNum
    case _ => 0
  }

  /**
   * GetIndexFromId. An optional leading 'P' (the SP3 position-record marker) is skipped;
   * the number after the constellation letter is read with std::stoi.
   */
  function IndexFromId(id: string): Result<int>
  {
    if |id| == 0 then Err(Undefined)                 // front() of an empty string
    else if id[0] == 'P' then
      if |id| < 2 then Err(OutOfRange)               // at(1)
      else match TagBias(id[1])
        case None => Ok(Int32Max)
        case Some(bias) => var n :- Stoi(id[2..]); Ok(n + bias)
    else match TagBias(id[0])
      case None => Ok(Int32Max)
      case Some(bias) => var n :- Stoi(id[1..]); Ok(n + bias)
  }

  /** Letter, a '0' when the number is below 10, then std::to_string of the number. */
  function Render(tag: char, number: int): string
  {
    [tag] + (if number < 10 then "0" else "") + IntToString(number)
  }

  /**
   * GetIdFromIndex as written: each test is a strict `<` against the bias of the
   * next constellation, which is the last index of the previous one.
   */
  function IdFromIndexAsWritten(index: int): string
  {
    if index < GlonassIndexBias then Render('G', index - GpsIndexBias)
    else if index < GalileoIndexBias then Render('R', index - GlonassIndexBias)
    else if index < BeidouIndexBias then Render('E', index - GalileoIndexBias)
    else if index < QzssIndexBias then Render('C', index - BeidouIndexBias)
    else Render('J', index - QzssIndexBias)
  }

  /** GetIdFromIndex as intended: the last index of each constellation stays in it. */
  function IdFromIndex(index: int): string
  {
    if index <= GlonassIndexBias then Render('G', index - GpsIndexBias)
    else if index <= GalileoIndexBias then Render('R', index - GlonassIndexBias)
    else if index <= BeidouIndexBias then Render('E', index - GalileoIndexBias)
    else if index <= QzssIndexBias then Render('C', index - BeidouIndexBias)
    else Render('J', index - QzssIndexBias)
  }

  /** A tracked satellite's identifier: letter, two digits, number 1..count. */
  predicate WellFormedId(id: string)
  {
    && |id| == 3
    && TagBias(id[0]).Some?
    && IsDigit(id[1]) && IsDigit(id[2])
    && 1 <= DigitsValue(id[1..]) <= SatCount(id[0])
  }

  /** "PG05" and "G05" (and every other pair differing by the leading 'P') share an index. */
  lemma PrefixedIdSameIndex(id: string)
    requires |id| > 0 && id[0] != 'P'
    ensures IndexFromId("P" + id) == IndexFromId(id)
  {
    var p := "P" + id;
    assert p[1] == id[0] && p[2..] == id[1..];
  }

  /** An unknown constellation letter maps to INT32_MAX, with or without the 'P'. */
  lemma UnknownTagIndex(id: string)
    requires |id| > 0 && id[0] != 'P' && TagBias(id[0]).None?
    ensures IndexFromId(id) == Ok(Int32Max)
    ensures IndexFromId("P" + id) == Ok(Int32Max)
  {
    PrefixedIdSameIndex(id);
  }

  lemma RenderReadsBack(tag: char, number: nat)
    ensures |Render(tag, number)| >= 3 && Render(tag, number)[0] == tag
    ensures Stoi(Render(tag, number)[1..]) == Ok(number)
  {
    var r := Render(tag, number);
    var d := NatToString(number);
    NatToStringValue(number);
    if number < 10 {
      assert r[1..] == "0" + d;
      LeadingZeroValue(d);
      StoiOfDigits("0" + d, []);
      assert "0" + d + [] == "0" + d;
    } else {
      assert r[1..] == d;
      StoiOfDigits(d, []);
      assert d + [] == d;
    }
  }

  lemma TwoDigitsValue(s: string)
    requires |s| == 2 && IsDigit(s[0]) && IsDigit(s[1])
    ensures DigitsValue(s) == DigitValue(s[0]) * 10 + DigitValue(s[1])
  {
    var u := s[..1];
    assert u == [s[0]] && u[..0] == [];
    assert DigitsValue(u) == DigitsValue(u[..0]) * 10 + DigitValue(u[0]);
    assert s[..|s| - 1] == u;
  }

  /** The two digits of a well-formed identifier are what Render writes for its number. */
  lemma RenderOfDigits(id: string)
    requires |id| == 3 && IsDigit(id[1]) && IsDigit(id[2])
    ensures Render(id[0], DigitsValue(id[1..])) == id
  {
    var s := id[1..];
    TwoDigitsValue(s);
    var v := DigitsValue(s);
    assert v == DigitValue(id[1]) * 10 + DigitValue(id[2]);
    if v < 10 {
      assert id[1] == '0';
      assert NatToString(v) == [id[2]];
    } else {
      assert v / 10 == DigitValue(id[1]) && v % 10 == DigitValue(id[2]);
      assert NatToString(v / 10) == [id[1]];
      assert NatToString(v) == [id[1], id[2]];
    }
  }

  /** The index of a well-formed identifier lies in [0, AllSatNum). */
  lemma IndexOfWellFormedId(id: string)
    requires WellFormedId(id)
    ensures IndexFromId(id) == Ok(DigitsValue(id[1..]) + TagBias(id[0]).value)
    ensures 0 <= IndexFromId(id).value < AllSatNum
  {
    RenderOfDigits(id);
    RenderReadsBack(id[0], DigitsValue(id[1..]));
  }

  /** id -> index -> id is the identity on well-formed identifiers (intended mapping). */
  lemma IdRoundTrip(id: string)
    requires WellFormedId(id)
    ensures IndexFromId(id).Ok? && IdFromIndex(IndexFromId(id).value) == id
  {
    IndexOfWellFormedId(id);
    var number := DigitsValue(id[1..]);
    BandOfTag(id[0], number);
    IdFromIndexIsRender(number + TagBias(id[0]).value);
    RenderOfDigits(id);
  }

  /** Numbers 1..count under a letter land in that letter's band of indices. */
  lemma BandOfTag(tag: char, number: int)
    requires TagBias(tag).Some? && 1 <= number <= SatCount(tag)
    ensures BandTag(number + TagBias(tag).value) == tag
  {
  }

  /** Render of a two-digit number: the letter, then exactly two digits holding it. */
  lemma RenderShape(tag: char, number: nat)
    requires number < 100
    ensures |Render(tag, number)| == 3 && Render(tag, number)[0] == tag
    ensures IsDigit(Render(tag, number)[1]) && IsDigit(Render(tag, number)[2])
    ensures DigitsValue(Render(tag, number)[1..]) == number
  {
    var id := Render(tag, number);
    var d := NatToString(number);
    NatToStringValue(number);
    if number < 10 {
      assert id[1..] == "0" + d;
      LeadingZeroValue(d);
    } else {
      assert NatToString(number / 10) == [DigitChar(number / 10)];
      assert |d| == 2;
      assert id[1..] == d;
    }
  }

  /** The index of an identifier with a known letter and no 'P', by its number. */
  lemma IndexOfTagged(id: string)
    requires |id| > 0 && id[0] != 'P' && TagBias(id[0]).Some?
    ensures IndexFromId(id) == (var n :- Stoi(id[1..]); Ok(n + TagBias(id[0]).value))
  {
  }

  /**
   * A known letter followed by a run of digits id[1..k] maps to their value plus the
   * bias, whatever non-digit text follows them.
   */
  lemma IndexOfDigits(id: string, k: nat)
    requires 1 < k <= |id| && id[0] != 'P' && TagBias(id[0]).Some?
    requires AllDigits(id[1..k]) && (k == |id| || !IsDigit(id[k]))
    ensures IndexFromId(id) == Ok(DigitsValue(id[1..k]) + TagBias(id[0]).value)
  {
    var n := DigitsValue(id[1..k]);
    assert Stoi(id[1..]) == Ok(n) by {
      assert id[1..] == id[1..k] + id[k..];
      StoiOfDigits(id[1..k], id[k..]);
    }
    IndexOfNumber(id, n);
  }

  /** A known letter, no 'P', and a number std::stoi reads: that number plus the bias. */
  lemma IndexOfNumber(id: string, n: int)
    requires |id| > 0 && id[0] != 'P' && TagBias(id[0]).Some? && Stoi(id[1..]) == Ok(n)
    ensures IndexFromId(id) == Ok(n + TagBias(id[0]).value)
  {
  }

  /** A known letter followed by neither a sign nor a digit is rejected by std::stoi. */
  lemma NumberlessIdRejected(tag: char, rest: string)
    requires tag != 'P' && TagBias(tag).Some?
    requires rest == [] || (!IsDigit(rest[0]) && rest[0] != '-' && rest[0] != '+')
    ensures IndexFromId([tag] + rest) == Err(InvalidArgument)
  {
    var id := [tag] + rest;
    assert Stoi(id[1..]) == Err(InvalidArgument) by {
      assert id[1..] == rest;
    }
    IndexOfTagged(id);
  }

  /** A number 0 is read without complaint and yields a negative index for GPS. */
  lemma NegativeIndexReachable()
    ensures IndexFromId("G00") == Ok(-1) && IndexFromId("PG00") == Ok(-1)
  {
    var id := "G00";
    assert id[1..3] == "00" && DigitsValue("00") == 0;
    IndexOfDigits(id, 3);
    PrefixedIdSameIndex("G00");
  }

  /** Render of a number in 1..count under a known letter is well formed and reads back. */
  lemma RenderWellFormed(tag: char, number: nat)
    requires TagBias(tag).Some? && 1 <= number <= SatCount(tag)
    ensures WellFormedId(Render(tag, number))
    ensures IndexFromId(Render(tag, number)) == Ok(number + TagBias(tag).value)
  {
    RenderShape(tag, number);
    RenderReadsBack(tag, number);
    IndexOfTagged(Render(tag, number));
  }

  /** The constellation whose indices contain `index`, as the intended mapping decides it. */
  function BandTag(index: int): char
  {
    if index <= GlonassIndexBias then 'G'
    else if index <= GalileoIndexBias then 'R'
    else if index <= BeidouIndexBias then 'E'
    else if index <= QzssIndexBias then 'C'
    else 'J'
  }

  /** The same, as the as-written mapping decides it. */
  function BandTagAsWritten(index: int): char
  {
    if index < GlonassIndexBias then 'G'
    else if index < GalileoIndexBias then 'R'
    else if index < BeidouIndexBias then 'E'
    else if index < QzssIndexBias then 'C'
    else 'J'
  }

  lemma IdFromIndexIsRender(index: int)
    requires 0 <= index < AllSatNum
    ensures TagBias(BandTag(index)).Some?
    ensures 1 <= index - TagBias(BandTag(index)).value <= SatCount(BandTag(index))
    ensures IdFromIndex(index) == Render(BandTag(index), index - TagBias(BandTag(index)).value)
  {
  }

  lemma IdFromIndexAsWrittenIsRender(index: int)
    requires 0 <= index < AllSatNum
    ensures TagBias(BandTagAsWritten(index)).Some?
    ensures 0 <= index - TagBias(BandTagAsWritten(index)).value
    ensures IdFromIndexAsWritten(index)
         == Render(BandTagAsWritten(index), index - TagBias(BandTagAsWritten(index)).value)
  {
  }

  /** index -> id -> index is the identity on [0, AllSatNum), and the id is well formed. */
  lemma IndexRoundTrip(index: int)
    requires 0 <= index < AllSatNum
    ensures WellFormedId(IdFromIndex(index))
    ensures IndexFromId(IdFromIndex(index)) == Ok(index)
  {
    IdFromIndexIsRender(index);
    RenderWellFormed(BandTag(index), index - TagBias(BandTag(index)).value);
  }

  /** The as-written mapping still satisfies index -> id -> index on [0, AllSatNum) ... */
  lemma AsWrittenIndexRoundTrip(index: int)
    requires 0 <= index < AllSatNum
    ensures IndexFromId(IdFromIndexAsWritten(index)) == Ok(index)
  {
    var tag := BandTagAsWritten(index);
    IdFromIndexAsWrittenIsRender(index);
    RenderReadsBack(tag, index - TagBias(tag).value);
    IndexOfTagged(Render(tag, index - TagBias(tag).value));
  }

  /**
   * ... but it renders the last satellite of GPS, GLONASS, Galileo and BeiDou with the
   * next constellation's letter and number 00, so id -> index -> id fails for
   * G32, R26, E36 and C16.
   */
  lemma AsWrittenBoundaryDefect()
    ensures IdFromIndexAsWritten(31) == "R00" && IdFromIndexAsWritten(57) == "E00"
    ensures IdFromIndexAsWritten(93) == "C00" && IdFromIndexAsWritten(109) == "J00"
    ensures IndexFromId("G32") == Ok(31) && IndexFromId("R26") == Ok(57)
    ensures IndexFromId("E36") == Ok(93) && IndexFromId("C16") == Ok(109)
    ensures IdFromIndex(31) == "G32" && IdFromIndex(57) == "R26"
    ensures IdFromIndex(93) == "E36" && IdFromIndex(109) == "C16"
  {
    NextZero('R', 31);
    NextZero('E', 57);
    NextZero('C', 93);
    NextZero('J', 109);
    LastSatellite("G32", 31);
    LastSatellite("R26", 57);
    LastSatellite("E36", 93);
    LastSatellite("C16", 109);
  }

  /** The index equal to a letter's bias is rendered with that letter and number 00. */
  lemma NextZero(tag: char, index: int)
    requires TagBias(tag) == Some(index) && tag != 'G'
    ensures IdFromIndexAsWritten(index) == [tag, '0', '0']
  {
    assert NatToString(0) == "0";
    assert Render(tag, 0) == [tag, '0', '0'];
  }

  lemma LastSatellite(id: string, index: int)
    requires |id| == 3 && TagBias(id[0]).Some? && IsDigit(id[1]) && IsDigit(id[2])
    requires DigitValue(id[1]) * 10 + DigitValue(id[2]) == SatCount(id[0])
    requires index == SatCount(id[0]) + TagBias(id[0]).value
    ensures IndexFromId(id) == Ok(index) && IdFromIndex(index) == id
  {
    TwoDigitsValue(id[1..]);
    assert WellFormedId(id);
    IdRoundTrip(id);
    IndexOfWellFormedId(id);
  }
}
