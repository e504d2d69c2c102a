/**
 * The product-file sequencing of InitGnssSatellites: the directory a file sort lives in,
 * the successive file names from `first` to `last` (day of year for CODE files, GPS week
 * and day for the others, six-hour segments for ultra-rapid files), the reading of each
 * named file into a page of lines, and the ultra-rapid flags handed to the tracks.
 */
module ProductFiles {
  import opened Wrappers
  import opened Decimal
  import opened Series

  /** std::string::substr(pos, len): throws when pos is past the end, clips len. */
  function Substr(s: string, pos: nat, len: nat): (r: Result<string>)
    ensures r.Ok? <==> pos <= |s|
    ensures r.Ok? ==> r.value == s[pos..if pos + len <= |s| then pos + len else |s|]
  {
    if pos > |s| then Err(OutOfRange) else Ok(s[pos..if pos + len <= |s| then pos + len else |s|])
  }

  /** std::string::substr(pos): the rest of the string from pos. */
  function SubstrFrom(s: string, pos: nat): (r: Result<string>)
    ensures r.Ok? <==> pos <= |s|
    ensures r.Ok? ==> r.value == s[pos..]
  {
    if pos > |s| then Err(OutOfRange) else Ok(s[pos..])
  }

  predicate OccursAt(s: string, sub: string, i: nat)
  {
    i + |sub| <= |s| && s[i..i + |sub|] == sub
  }

  lemma HeadOfOccurrence(s: string, sub: string, i: nat)
    ensures OccursAt(s, sub, i) && |sub| > 0 ==> s[i] == sub[0]
  {
    if OccursAt(s, sub, i) && |sub| > 0 {
      assert s[i..i + |sub|][0] == s[i];
    }
  }

  /** std::string::find(sub) != npos. */
  predicate Contains(s: string, sub: string)
  {
    exists i: nat | i <= |s| :: OccursAt(s, sub, i)
  }

  /** The index of the first '_' of a string, if any. */
  function FirstUnderscore(s: string): (r: Option<nat>)
    ensures r.Some? ==> r.value < |s| && s[r.value] == '_' && forall j :: 0 <= j < r.value ==> s[j] != '_'
    ensures r.None? ==> forall j :: 0 <= j < |s| ==> s[j] != '_'
  {
    if |s| == 0 then None
    else if s[0] == '_' then Some(0)
    else match FirstUnderscore(s[1..])
      case None => None
      case Some(i) => Some(i + 1)
  }

  /**
   * ReturnDirectoryPathWithFileType: IGS products by their third letter, MADOCA products
   * under JAXA, and any other sort by its prefix up to the first '_' and the letter after
   * it (final, rapid or ultra-rapid); another letter there stops the program.
   */
  function DirectoryOf(sort: string): Result<string>
  {
    if |sort| >= 2 && sort[..2] == "IG" then
      if |sort| < 3 then Err(OutOfRange)
      else if sort[2] == 'S' then Ok("IGS/igs/")
      else if sort[2] == 'R' then Ok("IGS/igr/")
      else if sort[2] == 'U' then Ok("IGS/igu/")
      else Ok("IGS/")
    else if |sort| >= 2 && sort[..2] == "ma" then Ok("JAXA/madoca/")
    else match FirstUnderscore(sort)
      case None => Ok("")
      case Some(i) =>
        if i + 1 >= |sort| then Err(OutOfRange)
        else if sort[i + 1] == 'F' then Ok(sort[..i] + "/" + "final/")
        else if sort[i + 1] == 'R' then Ok(sort[..i] + "/" + "rapid/")
        else if sort[i + 1] == 'U' then Ok(sort[..i] + "/" + "ultra_rapid/")
        else Err(Fatal)
  }

  lemma IgsDirectories(rest: string)
    ensures DirectoryOf("IGS" + rest) == Ok("IGS/igs/")
    ensures DirectoryOf("IGR" + rest) == Ok("IGS/igr/")
    ensures DirectoryOf("IGU" + rest) == Ok("IGS/igu/")
    ensures DirectoryOf("ma" + rest) == Ok("JAXA/madoca/")
  {
    assert ("IGS" + rest)[..2] == "IG" && ("IGR" + rest)[..2] == "IG" && ("IGU" + rest)[..2] == "IG";
    assert ("ma" + rest)[..2] == "ma";
  }

  /**
   * Any other sort: its prefix before the first '_' becomes the main directory and the
   * letter after the '_' picks the sub-directory; a sort without '_' gives "".
   */
  lemma UnderscoreDirectories(prefix: string, letter: char, rest: string)
    requires forall j :: 0 <= j < |prefix| ==> prefix[j] != '_'
    requires !(|prefix| >= 2 && (prefix[..2] == "IG" || prefix[..2] == "ma"))
    ensures var sort := prefix + "_" + [letter] + rest;
      && (letter == 'F' ==> DirectoryOf(sort) == Ok(prefix + "/final/"))
      && (letter == 'R' ==> DirectoryOf(sort) == Ok(prefix + "/rapid/"))
      && (letter == 'U' ==> DirectoryOf(sort) == Ok(prefix + "/ultra_rapid/"))
      && (letter !in "FRU" ==> DirectoryOf(sort) == Err(Fatal))
  {
    var sort := prefix + "_" + [letter] + rest;
    assert sort[|prefix|] == '_' && sort[|prefix| + 1] == letter && sort[..|prefix|] == prefix;
    assert forall j :: 0 <= j < |prefix| ==> sort[j] == prefix[j];
    assert FirstUnderscore(sort) == Some(|prefix|);
    if |prefix| >= 2 {
      assert sort[..2] == prefix[..2];
    } else if |prefix| == 1 {
      assert sort[..2] == [prefix[0], '_'];
    } else {
      assert sort[..2] == ['_', letter];
    }
    assert prefix + "/" + "final/" == prefix + "/final/";
    assert prefix + "/" + "rapid/" == prefix + "/rapid/";
    assert prefix + "/" + "ultra_rapid/" == prefix + "/ultra_rapid/";
  }

  lemma NoUnderscoreDirectory(sort: string)
    requires forall j :: 0 <= j < |sort| ==> sort[j] != '_'
    requires !(|sort| >= 2 && (sort[..2] == "IG" || sort[..2] == "ma"))
    ensures DirectoryOf(sort) == Ok("")
  {
  }

  // ---------------------------------------------------------------------------------
  // Naming schemes

  /** How a product's successive file names are formed. */
  datatype Scheme =
    | DayOfYear     // CODE final products: COD0MGXFIN_<year><day of year>0000_01D_05M_ORB.SP3
    | Weekly        // <header><GPS week><day of week><footer>
    | UltraRapid    // <header><GPS week><day of week>_<hour><footer>

  /** The fixed parts of a name, taken from `first`. */
  datatype Naming = Naming(header: string, footer: string)

  /** The counters the loop steps: the year (DayOfYear) or GPS week, the day, the hour. */
  datatype Counter = Counter(major: int, day: int, hour: int)

  const CodHeader: string := "COD0MGXFIN_"
  const CodFooter: string := "0000_01D_05M_ORB.SP3"

  /** The number of days of a Gregorian year. */
  function YearLength(year: int): (n: int)
    ensures n == 365 || n == 366
  {
    365 + (if year % 4 == 0 then 1 else 0) - (if year % 100 == 0 then 1 else 0) + (if year % 400 == 0 then 1 else 0)
  }

  lemma YearLengthIsGregorian(year: int)
    ensures YearLength(year) == 366 <==> (year % 4 == 0 && (year % 100 != 0 || year % 400 == 0))
  {
    if year % 100 == 0 {
      assert year % 4 == 0 by {
        assert year == 100 * (year / 100);
        assert year == 4 * (25 * (year / 100));
      }
    }
    if year % 400 == 0 {
      assert year % 100 == 0 by {
        assert year == 400 * (year / 400);
        assert year == 100 * (4 * (year / 400));
      }
    }
  }

  /** The day of year with exactly three characters for days 1 to 999 (two leading zeros at most). */
  function DayString(day: int): string
  {
    if day >= 100 then IntToString(day)
    else if day >= 10 then "0" + IntToString(day)
    else "00" + IntToString(day)
  }

  lemma DayStringThreeDigits(day: int)
    requires 1 <= day <= 999
    ensures |DayString(day)| == 3 && AllDigits(DayString(day)) && DigitsValue(DayString(day)) == day
  {
    NatToStringWidth(day);
    NatToStringValue(day);
    var s := NatToString(day);
    if day < 100 {
      LeadingZeroValue(s);
      if day < 10 {
        LeadingZeroValue("0" + s);
        assert "00" + s == "0" + ("0" + s);
      }
    }
  }

  /** The "_hh" hour field of an ultra-rapid name: zero-padded to two digits. */
  function HourString(hour: int): string
  {
    if hour < 10 then "0" + IntToString(hour) else IntToString(hour)
  }

  lemma HourStringTwoDigits(hour: int)
    requires 0 <= hour < 100
    ensures |HourString(hour)| == 2 && AllDigits(HourString(hour)) && DigitsValue(HourString(hour)) == hour
  {
    NatToStringWidth(hour);
    NatToStringValue(hour);
    if hour < 10 {
      LeadingZeroValue(NatToString(hour));
    } else {
      assert HourString(hour) == NatToString(hour);
    }
  }

  /** The roll-over at the top of each pass of the loop. */
  function Normalize(scheme: Scheme, c: Counter): Counter
  {
    match scheme
    case DayOfYear => if c.day > YearLength(c.major) then Counter(c.major + 1, 1, c.hour) else c
    case Weekly => if c.day == 7 then Counter(c.major + 1, 0, c.hour) else c
    case UltraRapid =>
      var h := if c.hour == 24 then Counter(c.major, c.day + 1, 0) else c;
      if h.day == 7 then Counter(h.major + 1, 0, h.hour) else h
  }

  /** The step at the bottom of the loop: the next day, or the next six-hour segment. */
  function Advance(scheme: Scheme, c: Counter): Counter
  {
    if scheme == UltraRapid then c.(hour := c.hour + 6) else c.(day := c.day + 1)
  }

  function NameOf(scheme: Scheme, naming: Naming, c: Counter): string
  {
    match scheme
    case DayOfYear => naming.header + IntToString(c.major) + DayString(c.day) + naming.footer
    case Weekly => naming.header + IntToString(c.major) + IntToString(c.day) + naming.footer
    case UltraRapid => naming.header + IntToString(c.major) + IntToString(c.day) + "_" + HourString(c.hour) + naming.footer
  }

  /** The names of one product: NameOf with the scheme and fixed parts of `first` bound. */
  function Namer(scheme: Scheme, naming: Naming): Counter -> string
  {
    c => NameOf(scheme, naming, c)
  }

  /** A CODE day steps to the next day of the year, and after the last day to 1 January. */
  lemma DayOfYearStep(c: Counter)
    requires 1 <= c.day <= YearLength(c.major)
    ensures var n := Normalize(DayOfYear, Advance(DayOfYear, c));
      n == if c.day == YearLength(c.major) then Counter(c.major + 1, 1, c.hour) else c.(day := c.day + 1)
    ensures var n := Normalize(DayOfYear, Advance(DayOfYear, c)); 1 <= n.day <= YearLength(n.major)
  {
  }

  /** Days since GPS week 0. */
  function DayNumber(c: Counter): int
  {
    7 * c.major + c.day
  }

  /** A weekly name steps exactly one day on, the day staying within the week. */
  lemma WeeklyStep(c: Counter)
    requires 0 <= c.day <= 6
    ensures var n := Normalize(Weekly, Advance(Weekly, c)); 0 <= n.day <= 6 && DayNumber(n) == DayNumber(c) + 1
  {
  }

  /** An ultra-rapid name steps exactly six hours on, with the hour one of 0, 6, 12, 18. */
  lemma UltraRapidStep(c: Counter)
    requires 0 <= c.day <= 6 && c.hour in {0, 6, 12, 18}
    ensures var n := Normalize(UltraRapid, Advance(UltraRapid, c));
      0 <= n.day <= 6 && n.hour in {0, 6, 12, 18} && 24 * DayNumber(n) + n.hour == 24 * DayNumber(c) + c.hour + 6
  {
  }

  // ---------------------------------------------------------------------------------
  // Parsing `first`

  /** The index of the first decimal digit of a string, if any. */
  function FirstDigit(s: string): (r: Option<nat>)
    ensures r.Some? ==> r.value < |s| && IsDigit(s[r.value]) && forall j :: 0 <= j < r.value ==> !IsDigit(s[j])
    ensures r.None? ==> forall j :: 0 <= j < |s| ==> !IsDigit(s[j])
  {
    if |s| == 0 then None
    else if IsDigit(s[0]) then Some(0)
    else match FirstDigit(s[1..])
      case None => None
      case Some(i) => Some(i + 1)
  }

  /**
   * The header, GPS week, day (and for ultra-rapid names the hour) and footer of `first`:
   * the header is everything before the first digit, the week the next four characters,
   * the day one character, the hour the two characters after the '_', the footer the rest.
   * A name without digits leaves all of them empty or zero.
   */
  function ParseWeekly(first: string, withHour: bool): Result<(Naming, Counter)>
  {
    match FirstDigit(first)
    case None => Ok((Naming("", ""), Counter(0, 0, 0)))
    case Some(i) =>
      var weekText :- Substr(first, i, 4);
      var week :- Stoi(weekText);
      var dayText :- Substr(first, i + 4, 1);
      var day :- Stoi(dayText);
      if withHour then
        var hourText :- Substr(first, i + 6, 2);
        var hour :- Stoi(hourText);
        var footer :- SubstrFrom(first, i + 8);
        Ok((Naming(first[..i], footer), Counter(week, day, hour)))
      else
        var footer :- SubstrFrom(first, i + 5);
        Ok((Naming(first[..i], footer), Counter(week, day, 0)))
  }

  /** The year and day of year of a CODE name. */
  function ParseDayOfYear(first: string): Result<Counter>
  {
    var yearText :- Substr(first, |CodHeader|, 4);
    var year :- Stoi(yearText);
    var dayText :- Substr(first, |CodHeader| + 4, 3);
    var day :- Stoi(dayText);
    Ok(Counter(year, day, 0))
  }

  lemma FirstDigitAfter(header: string, rest: string)
    requires forall j :: 0 <= j < |header| ==> !IsDigit(header[j])
    requires |rest| > 0 && IsDigit(rest[0])
    ensures FirstDigit(header + rest) == Some(|header|)
  {
    var s := header + rest;
    assert s[|header|] == rest[0];
    assert forall j :: 0 <= j < |header| ==> s[j] == header[j];
  }

  /**
   * Weekly names read back: a name formed from a header without digits, a four-digit week
   * and a day 0..9 parses to that header, footer, week and day.
   */
  lemma WeeklyNameParses(naming: Naming, c: Counter)
    requires forall j :: 0 <= j < |naming.header| ==> !IsDigit(naming.header[j])
    requires 1000 <= c.major <= 9999 && 0 <= c.day <= 9 && c.hour == 0
    ensures ParseWeekly(NameOf(Weekly, naming, c), false) == Ok((naming, c))
  {
    var h, w, d, f := naming.header, NatToString(c.major), NatToString(c.day), naming.footer;
    NatToStringWidth(c.major);
    NatToStringWidth(c.day);
    NatToStringValue(c.major);
    NatToStringValue(c.day);
    var s := h + w + d + f;
    assert s == NameOf(Weekly, naming, c);
    var i := |h|;
    assert s == h + (w + d + f);
    FirstDigitAfter(h, w + d + f);
    assert s[i..i + 4] == w;
    assert s[i + 4..i + 5] == d;
    assert s[..i] == h && s[i + 5..] == f;
    StoiOfDigits(w, []);
    assert w + [] == w;
    StoiOfDigits(d, []);
    assert d + [] == d;
  }

  /** Ultra-rapid names read back, hour included. */
  lemma UltraRapidNameParses(naming: Naming, c: Counter)
    requires forall j :: 0 <= j < |naming.header| ==> !IsDigit(naming.header[j])
    requires 1000 <= c.major <= 9999 && 0 <= c.day <= 9 && 0 <= c.hour <= 99
    ensures ParseWeekly(NameOf(UltraRapid, naming, c), true) == Ok((naming, c))
  {
    var h, w, d, hh, f := naming.header, NatToString(c.major), NatToString(c.day), HourString(c.hour), naming.footer;
    NatToStringWidth(c.major);
    NatToStringWidth(c.day);
    NatToStringValue(c.major);
    NatToStringValue(c.day);
    HourStringTwoDigits(c.hour);
    var s := h + w + d + "_" + hh + f;
    assert s == NameOf(UltraRapid, naming, c);
    var i := |h|;
    assert s == h + (w + d + "_" + hh + f);
    FirstDigitAfter(h, w + d + "_" + hh + f);
    assert s[i..i + 4] == w;
    assert s[i + 4..i + 5] == d;
    assert s[i + 6..i + 8] == hh;
    assert s[..i] == h && s[i + 8..] == f;
    StoiOfDigits(w, []);
    assert w + [] == w;
    StoiOfDigits(d, []);
    assert d + [] == d;
    StoiOfDigits(hh, []);
    assert hh + [] == hh;
  }

  /** CODE names read back: a four-digit year and a day 1..999. */
  lemma DayOfYearNameParses(c: Counter)
    requires 1000 <= c.major <= 9999 && 1 <= c.day <= 999 && c.hour == 0
    ensures ParseDayOfYear(NameOf(DayOfYear, Naming(CodHeader, CodFooter), c)) == Ok(c)
  {
    var y, d := NatToString(c.major), DayString(c.day);
    NatToStringWidth(c.major);
    NatToStringValue(c.major);
    DayStringThreeDigits(c.day);
    var s := CodHeader + y + d + CodFooter;
    assert s == NameOf(DayOfYear, Naming(CodHeader, CodFooter), c);
    assert s[11..15] == y;
    assert s[15..18] == d;
    StoiOfDigits(y, []);
    assert y + [] == y;
    StoiOfDigits(d, []);
    assert d + [] == d;
  }

  // ---------------------------------------------------------------------------------
  // Reading the pages

  /**
   * ReadFileContents: the lines of the file at `path` in the directory listing `files`; a
   * missing file stops the program, a last line "EOF" is dropped, and an empty file has
   * no last line to look at.
   */
  function ReadFileContents(files: map<string, seq<string>>, path: string): (r: Result<seq<string>>)
    ensures r.Ok? ==> path in files && |files[path]| > 0
    ensures r.Ok? ==> r.value == if files[path][|files[path]| - 1] == "EOF" then files[path][..|files[path]| - 1] else files[path]
  {
    if path !in files then Err(Fatal)
    else
      var lines := files[path];
      if |lines| == 0 then Err(Undefined)
      else if lines[|lines| - 1] == "EOF" then Ok(lines[..|lines| - 1])
      else Ok(lines)
  }

  /**
   * The names the loop forms from counter `c`, up to and including `last`. The source
   * loops until it forms `last`; the model allows `fuel` further names.
   */
  function Names(scheme: Scheme, namer: Counter -> string, c: Counter, last: string, fuel: nat): Result<seq<string>>
    decreases fuel
  {
    var n := Normalize(scheme, c);
    var name := namer(n);
    if name == last then Ok([name])
    else if fuel == 0 then Err(NotReached)
    else
      var rest :- Names(scheme, namer, Advance(scheme, n), last, fuel - 1);
      Ok([name] + rest)
  }

  /** The pages the loop reads: one per name, each read before the name is compared with `last`. */
  function Pages(files: map<string, seq<string>>, dir: string, scheme: Scheme, namer: Counter -> string, c: Counter,
                 last: string, fuel: nat): Result<seq<seq<string>>>
    decreases fuel
  {
    var n := Normalize(scheme, c);
    var name := namer(n);
    var page :- ReadFileContents(files, dir + name);
    if name == last then Ok([page])
    else if fuel == 0 then Err(NotReached)
    else
      var rest :- Pages(files, dir, scheme, namer, Advance(scheme, n), last, fuel - 1);
      Ok([page] + rest)
  }

  /** The name sequence ends with `last` and holds it nowhere before: the loop stops right after it. */
  lemma {:induction false} NamesEndAtLast(scheme: Scheme, namer: Counter -> string, c: Counter, last: string, fuel: nat)
    requires Names(scheme, namer, c, last, fuel).Ok?
    ensures var ns := Names(scheme, namer, c, last, fuel).value;
      && 1 <= |ns| <= fuel + 1 && ns[|ns| - 1] == last
      && forall i :: 0 <= i < |ns| - 1 ==> ns[i] != last
    decreases fuel
  {
    var n := Normalize(scheme, c);
    var name := namer(n);
    if name != last {
      NamesEndAtLast(scheme, namer, Advance(scheme, n), last, fuel - 1);
      var rest := Names(scheme, namer, Advance(scheme, n), last, fuel - 1).value;
      var ns := [name] + rest;
      assert forall i :: 1 <= i < |ns| ==> ns[i] == rest[i - 1];
    }
  }

  /** One page per name, each the contents of the file of that name. */
  lemma {:induction false} PagesFollowNames(files: map<string, seq<string>>, dir: string, scheme: Scheme,
                                            namer: Counter -> string, c: Counter, last: string, fuel: nat)
    requires Pages(files, dir, scheme, namer, c, last, fuel).Ok?
    ensures Names(scheme, namer, c, last, fuel).Ok?
    ensures var ps := Pages(files, dir, scheme, namer, c, last, fuel).value;
      var ns := Names(scheme, namer, c, last, fuel).value;
      |ps| == |ns| && forall i :: 0 <= i < |ps| ==> ReadFileContents(files, dir + ns[i]) == Ok(ps[i])
    decreases fuel
  {
    var n := Normalize(scheme, c);
    var name := namer(n);
    if name != last {
      PagesFollowNames(files, dir, scheme, namer, Advance(scheme, n), last, fuel - 1);
      var ps := Pages(files, dir, scheme, namer, c, last, fuel).value;
      var ns := Names(scheme, namer, c, last, fuel).value;
      var rp := Pages(files, dir, scheme, namer, Advance(scheme, n), last, fuel - 1).value;
      var rn := Names(scheme, namer, Advance(scheme, n), last, fuel - 1).value;
      assert ps == [ps[0]] + rp && ns == [name] + rn;
      assert forall i :: 1 <= i < |ps| ==> ps[i] == rp[i - 1] && ns[i] == rn[i - 1];
    }
  }

  function Prepend(pages: seq<seq<string>>, r: Result<seq<seq<string>>>): Result<seq<seq<string>>>
  {
    if r.Ok? then Ok(pages + r.value) else r
  }

  lemma PrependNothing(r: Result<seq<seq<string>>>)
    ensures Prepend([], r) == r
  {
    if r.Ok? {
      assert [] + r.value == r.value;
    }
  }

  lemma PrependTwice(a: seq<seq<string>>, b: seq<seq<string>>, r: Result<seq<seq<string>>>)
    ensures Prepend(a, Prepend(b, r)) == Prepend(a + b, r)
  {
    if r.Ok? {
      assert a + (b + r.value) == (a + b) + r.value;
    }
  }

  /** One pass of the loop: the page of the normalized counter's name, then the rest. */
  lemma PagesUnfold(files: map<string, seq<string>>, dir: string, scheme: Scheme, namer: Counter -> string, c: Counter,
                    last: string, fuel: nat)
    ensures var n := Normalize(scheme, c);
      var name := namer(n);
      var page := ReadFileContents(files, dir + name);
      Pages(files, dir, scheme, namer, c, last, fuel)
        == if page.Err? then Err(page.fault)
           else if name == last then Ok([page.value])
           else if fuel == 0 then Err(NotReached)
           else Prepend([page.value], Pages(files, dir, scheme, namer, Advance(scheme, n), last, fuel - 1))
  {
  }

  /** The while (true) loop of ReadSp3Files and ReadClockFiles, from the parsed counters. */
  method ReadPages(files: map<string, seq<string>>, dir: string, scheme: Scheme, namer: Counter -> string, start: Counter,
                   last: string, bound: nat) returns (r: Result<seq<seq<string>>>)
    ensures r == Pages(files, dir, scheme, namer, start, last, bound)
  {
    var pages: seq<seq<string>> := [];
    var c := start;
    var fuel := bound;
    ghost var total := Pages(files, dir, scheme, namer, start, last, bound);
    PrependNothing(total);
    while true
      invariant total == Prepend(pages, Pages(files, dir, scheme, namer, c, last, fuel))
      decreases fuel
    {
      PagesUnfold(files, dir, scheme, namer, c, last, fuel);
      c := Normalize(scheme, c);
      var name := namer(c);
      var page := ReadFileContents(files, dir + name);
      if page.Err? {
        return Err(page.fault);
      }
      if name == last {
        return Ok(pages + [page.value]);
      }
      if fuel == 0 {
        return Err(NotReached);
      }
      PrependTwice(pages, [page.value], Pages(files, dir, scheme, namer, Advance(scheme, c), last, fuel - 1));
      pages := pages + [page.value];
      fuel, c := fuel - 1, Advance(scheme, c);
    }
  }

  /** Whether a file sort names ultra-rapid SP3 products. */
  predicate UltraRapidSort(fileSort: string)
  {
    (|fileSort| >= 3 && fileSort[..3] == "IGU") || Contains(fileSort, "Ultra")
  }

  /** The ultra-rapid flag ReadSp3Files reports: unknown for ultra-rapid sorts, else not used. */
  function Sp3Flag(fileSort: string, first: string): (flag: int)
    ensures flag == NotUse || flag == Unknown
    ensures flag == Unknown <==> !(|first| >= 3 && first[..3] == "COD") && UltraRapidSort(fileSort)
  {
    if |first| >= 3 && first[..3] == "COD" then NotUse
    else if UltraRapidSort(fileSort) then Unknown
    else NotUse
  }

  /** How ReadSp3Files names its files, and where it starts. */
  function Sp3Start(fileSort: string, first: string): Result<(Scheme, Naming, Counter)>
  {
    if |first| >= 3 && first[..3] == "COD" then
      var c :- ParseDayOfYear(first);
      Ok((DayOfYear, Naming(CodHeader, CodFooter), c))
    else if UltraRapidSort(fileSort) then
      var p :- ParseWeekly(first, true);
      Ok((UltraRapid, p.0, p.1))
    else
      var p :- ParseWeekly(first, false);
      Ok((Weekly, p.0, p.1))
  }

  /** The flag is kUnknown exactly when the files are named by the ultra-rapid scheme. */
  lemma Sp3FlagMatchesScheme(fileSort: string, first: string)
    requires Sp3Start(fileSort, first).Ok?
    ensures Sp3Flag(fileSort, first) == Unknown <==> Sp3Start(fileSort, first).value.0 == UltraRapid
    ensures Sp3Flag(fileSort, first) == NotUse <==> Sp3Start(fileSort, first).value.0 != UltraRapid
  {
  }

  /** ReadSp3Files: the pages from `first` to `last` and the ultra-rapid flag. */
  function Sp3Files(files: map<string, seq<string>>, directoryPath: string, fileSort: string, first: string,
                    last: string, bound: nat): Result<(seq<seq<string>>, int)>
  {
    var sub :- DirectoryOf(fileSort);
    var start :- Sp3Start(fileSort, first);
    var pages :- Pages(files, directoryPath + sub, start.0, Namer(start.0, start.1), start.2, last, bound);
    Ok((pages, Sp3Flag(fileSort, first)))
  }

  method ReadSp3Files(files: map<string, seq<string>>, directoryPath: string, fileSort: string, first: string,
                      last: string, bound: nat) returns (r: Result<(seq<seq<string>>, int)>)
    ensures r == Sp3Files(files, directoryPath, fileSort, first, last, bound)
  {
    var sub := DirectoryOf(fileSort);
    if sub.Err? {
      return Err(sub.fault);
    }
    var start := Sp3Start(fileSort, first);
    if start.Err? {
      return Err(start.fault);
    }
    var pages := ReadPages(files, directoryPath + sub.value, start.value.0, Namer(start.value.0, start.value.1),
                           start.value.2, last, bound);
    if pages.Err? {
      return Err(pages.fault);
    }
    return Ok((pages.value, Sp3Flag(fileSort, first)));
  }

  /** ReadClockFiles: the directory gains the extension without its dot; names are weekly or ultra-rapid. */
  function ClockFiles(files: map<string, seq<string>>, directoryPath: string, extension: string, fileSort: string,
                      first: string, last: string, bound: nat): Result<seq<seq<string>>>
  {
    var sub :- DirectoryOf(fileSort);
    var ext :- SubstrFrom(extension, 1);
    var ultra := Contains(fileSort, "Ultra");
    var p :- ParseWeekly(first, ultra);
    var scheme := if ultra then UltraRapid else Weekly;
    Pages(files, directoryPath + sub + ext + "/", scheme, Namer(scheme, p.0), p.1, last, bound)
  }

  method ReadClockFiles(files: map<string, seq<string>>, directoryPath: string, extension: string, fileSort: string,
                        first: string, last: string, bound: nat) returns (r: Result<seq<seq<string>>>)
    ensures r == ClockFiles(files, directoryPath, extension, fileSort, first, last, bound)
  {
    var sub := DirectoryOf(fileSort);
    if sub.Err? {
      return Err(sub.fault);
    }
    if |extension| < 1 {
      return Err(OutOfRange);
    }
    var ultra := Contains(fileSort, "Ultra");
    var p := ParseWeekly(first, ultra);
    if p.Err? {
      return Err(p.fault);
    }
    var scheme := if ultra then UltraRapid else Weekly;
    r := ReadPages(files, directoryPath + sub.value + extension[1..] + "/", scheme, Namer(scheme, p.value.0),
                   p.value.1, last, bound);
  }

  /**
   * The estimate position's segment: for an ultra-rapid file, "...observeK" selects
   * observed segment K and anything else predicted segment K, K being the last character.
   */
  function SegmentFlag(choice: string): (r: Result<int>)
    ensures |choice| > 0 <==> r.Ok?
    ensures r.Ok? ==> r.value == (if Contains(choice, "observe") then Observe1 else Predict1)
                                 + (choice[|choice| - 1] as int - '1' as int)
  {
    if Contains(choice, "observe") then
      assert |choice| >= 7;
      Ok(Observe1 + (choice[|choice| - 1] as int - '1' as int))
    else if |choice| == 0 then Err(Undefined)
    else Ok(Predict1 + (choice[|choice| - 1] as int - '1' as int))
  }

  lemma SegmentFlagOfChoice(k: int)
    requires 1 <= k <= 4
    ensures SegmentFlag("observe" + [('0' as int + k) as char]) == Ok(Observe1 + k - 1)
    ensures SegmentFlag("predict" + [('0' as int + k) as char]) == Ok(Predict1 + k - 1)
  {
    var o := "observe" + [('0' as int + k) as char];
    assert OccursAt(o, "observe", 0);
    var p := "predict" + [('0' as int + k) as char];
    forall i: nat | i <= |p| && OccursAt(p, "observe", i)
      ensures false
    {
      HeadOfOccurrence(p, "observe", i);
    }
  }

  /** The estimate position flag: the segment choice applies only to an ultra-rapid file. */
  function EstimatePositionFlag(readFlag: int, choice: string): (r: Result<int>)
    ensures readFlag == NotUse ==> r == Ok(NotUse)
    ensures readFlag != NotUse ==> r == SegmentFlag(choice)
  {
    if readFlag != NotUse then SegmentFlag(choice) else Ok(readFlag)
  }

  /**
   * Only an ultra-rapid estimate position reads the segment choice: "observeK" and
   * "predictK" select segment K, and an empty choice fails on its last character.
   */
  lemma EstimatePositionFlagOfChoice(readFlag: int, k: int)
    requires 1 <= k <= 4
    ensures readFlag == NotUse ==> EstimatePositionFlag(readFlag, "observe" + [('0' as int + k) as char]) == Ok(NotUse)
    ensures readFlag == NotUse ==> EstimatePositionFlag(readFlag, "predict" + [('0' as int + k) as char]) == Ok(NotUse)
    ensures readFlag == NotUse ==> EstimatePositionFlag(readFlag, "") == Ok(NotUse)
    ensures readFlag != NotUse ==> EstimatePositionFlag(readFlag, "observe" + [('0' as int + k) as char]) == Ok(Observe1 + k - 1)
    ensures readFlag != NotUse ==> EstimatePositionFlag(readFlag, "predict" + [('0' as int + k) as char]) == Ok(Predict1 + k - 1)
    ensures readFlag != NotUse ==> EstimatePositionFlag(readFlag, "").Err?
  {
    SegmentFlagOfChoice(k);
  }

  /**
   * The estimate clock starts from the estimate position's flag; an SP3 clock file
   * replaces it with the flag ReadSp3Files reports for the clock sort.
   */
  function EstimateClockFlag(extension: string, clockSort: string, clockFirst: string, positionFlag: int): (flag: int)
    ensures extension != ".sp3" ==> flag == positionFlag
    ensures extension == ".sp3" ==> flag == NotUse || flag == Unknown
    ensures extension == ".sp3" ==> flag == Sp3Flag(clockSort, clockFirst)
  {
    if extension == ".sp3" then Sp3Flag(clockSort, clockFirst) else positionFlag
  }

  /**
   * An ultra-rapid estimate position with choice "observeK" selects observed segment K;
   * a non-SP3 estimate clock keeps that segment, while an SP3 estimate clock overwrites it
   * with its own file's flag, so an ultra-rapid SP3 clock is left at kUnknown.
   */
  lemma UltraRapidEstimateFlags(positionSort: string, positionFirst: string, k: int, extension: string,
                                clockSort: string, clockFirst: string)
    requires 1 <= k <= 4
    requires !(|positionFirst| >= 3 && positionFirst[..3] == "COD") && UltraRapidSort(positionSort)
    ensures EstimatePositionFlag(Sp3Flag(positionSort, positionFirst), "observe" + [('0' as int + k) as char])
            == Ok(Observe1 + k - 1)
    ensures extension != ".sp3" ==> EstimateClockFlag(extension, clockSort, clockFirst, Observe1 + k - 1) == Observe1 + k - 1
    ensures extension == ".sp3" && !(|clockFirst| >= 3 && clockFirst[..3] == "COD") && UltraRapidSort(clockSort)
            ==> EstimateClockFlag(extension, clockSort, clockFirst, Observe1 + k - 1) == Unknown
  {
    EstimatePositionFlagOfChoice(Sp3Flag(positionSort, positionFirst), k);
  }
}
