/** castDate: the date normaliser between NetFile's three date conventions
    and the catalog's `YYYY-MM-DDTHH:mm:ss`. */
module Dates {
  import opened Values

  /** NetFile's `YYYY-MM-DDTHH:mm:ss.fffffff-HH:mm` is 33 characters long. */
  const NETFILE_TIMESTAMP_LENGTH: nat := 33
  /** The catalog's `YYYY-MM-DDTHH:mm:ss` is its first 19 characters. */
  const CATALOG_TIMESTAMP_LENGTH: nat := 19

  /** `\d`, read as an ASCII digit. */
  predicate IsDigit(ch: char) { '0' <= ch <= '9' }

  predicate AllDigits(s: string) {
    forall i :: 0 <= i < |s| ==> IsDigit(s[i])
  }

  /** The length of the run of digits that starts s. */
  function DigitRun(s: string): (n: nat)
    ensures n <= |s|
  {
    if s == [] || !IsDigit(s[0]) then 0 else 1 + DigitRun(s[1..])
  }

  /** The three groups of a user-entered `month/day/year` date. */
  datatype SlashDate = SlashDate(month: string, day: string, year: string)

  /** The user-entered date pattern (digits, slash, digits, slash, four digits,
      anchored at both ends), matched against s: each run-of-digits group can only end
      where its run of digits ends, so the match, when there is one, is unique. */
  function MatchSlashDate(s: string): Option<SlashDate>
  {
    var m := DigitRun(s);
    if m == 0 || m == |s| || s[m] != '/' then None
    else
      var rest := s[m + 1..];
      var d := DigitRun(rest);
      if d == 0 || d == |rest| || rest[d] != '/' then None
      else
        var y := rest[d + 1..];
        if |y| == 4 && AllDigits(y) then Some(SlashDate(s[..m], rest[..d], y)) else None
  }

  /** A string of digits left-padded with zeros to at least `width` characters. */
  function ZFill(s: string, width: nat): string
    decreases width - |s|
  {
    if |s| >= width then s else ZFill("0" + s, width)
  }

  /** Form700_Blocking.castDate: None and "" become None; a `M/D/YYYY` string
      becomes `YYYY-MM-DD` (month and day zero-filled to two digits), checked
      before the length rule; any other string whose length is not 33 is kept;
      a 33-character string keeps its first 19 characters. Any other value
      makes the regex raise. */
  function CastDate(v: Value): Result<Value>
  {
    match v
    case VNull => Ok(VNull)
    case VStr(s) =>
      if s == "" then Ok(VNull)
      else (
        match MatchSlashDate(s)
        case Some(SlashDate(month, day, year)) =>
          Ok(VStr(year + "-" + ZFill(month, 2) + "-" + ZFill(day, 2)))
        case None =>
          if |s| != NETFILE_TIMESTAMP_LENGTH then Ok(VStr(s)) else Ok(VStr(s[..CATALOG_TIMESTAMP_LENGTH])))
    case _ => Err(TypeMismatch)
  }

  /** A one- or two-digit-or-longer group, zero-filled to two characters. */
  function Pad2(s: string): string {
    if |s| == 1 then "0" + s else s
  }

  lemma DigitRunAll(a: string, b: string)
    requires AllDigits(a)
    requires b == [] || !IsDigit(b[0])
    ensures DigitRun(a + b) == |a|
    decreases |a|
  {
    if a != [] {
      assert (a + b)[1..] == a[1..] + b;
      DigitRunAll(a[1..], b);
    } else {
      assert a + b == b;
    }
  }

  lemma {:induction false} DigitRunIsDigits(s: string)
    ensures AllDigits(s[..DigitRun(s)])
    ensures DigitRun(s) < |s| ==> !IsDigit(s[DigitRun(s)])
    decreases |s|
  {
    if s != [] && IsDigit(s[0]) {
      DigitRunIsDigits(s[1..]);
      assert s[..DigitRun(s)] == [s[0]] + s[1..][..DigitRun(s[1..])];
    }
  }

  /** Cutting a string around one of its slashes. */
  lemma SplitAtSlash(s: string, m: nat)
    requires m < |s| && s[m] == '/'
    ensures s == s[..m] + "/" + s[m + 1..]
  {
  }

  /** A match splits the string into its three groups around two slashes. */
  lemma {:induction false} MatchSlashDateParts(s: string)
    requires MatchSlashDate(s).Some?
    ensures var sd := MatchSlashDate(s).value;
      |sd.month| > 0 && AllDigits(sd.month) && |sd.day| > 0 && AllDigits(sd.day) &&
      |sd.year| == 4 && AllDigits(sd.year) && s == sd.month + "/" + sd.day + "/" + sd.year
  {
    DigitRunIsDigits(s);
    var m := DigitRun(s);
    var rest := s[m + 1..];
    DigitRunIsDigits(rest);
    var d := DigitRun(rest);
    var month, day, year := s[..m], rest[..d], rest[d + 1..];
    assert MatchSlashDate(s).value == SlashDate(month, day, year);
    SplitAtSlash(s, m);
    SplitAtSlash(rest, d);
    calc {
      s;
      month + "/" + rest;
      month + "/" + (day + "/" + year);
      { assert month + "/" + (day + "/" + year) == (month + "/") + (day + "/" + year); }
      month + "/" + day + "/" + year;
    }
  }

  /** Three groups of the right shape, joined by slashes, match as themselves. */
  lemma MatchSlashDateOf(month: string, day: string, year: string)
    requires |month| > 0 && AllDigits(month) && |day| > 0 && AllDigits(day)
    requires |year| == 4 && AllDigits(year)
    ensures MatchSlashDate(month + "/" + day + "/" + year) == Some(SlashDate(month, day, year))
  {
    var s := month + "/" + day + "/" + year;
    DigitRunAll(month, "/" + day + "/" + year);
    assert s == month + ("/" + day + "/" + year);
    var rest := s[|month| + 1..];
    assert rest == day + ("/" + year);
    DigitRunAll(day, "/" + year);
    assert s[..|month|] == month;
    assert rest[..|day|] == day;
    assert rest[|day| + 1..] == year;
  }

  /** The regex accepts exactly `month + "/" + day + "/" + year` with a
      non-empty run of digits for month and day and four digits for year, and
      its groups are those three parts. */
  lemma SlashDateShape(s: string, month: string, day: string, year: string)
    ensures MatchSlashDate(s) == Some(SlashDate(month, day, year)) <==>
      (|month| > 0 && AllDigits(month) && |day| > 0 && AllDigits(day) &&
       |year| == 4 && AllDigits(year) && s == month + "/" + day + "/" + year)
  {
    if MatchSlashDate(s) == Some(SlashDate(month, day, year)) {
      MatchSlashDateParts(s);
    }
    if |month| > 0 && AllDigits(month) && |day| > 0 && AllDigits(day) &&
       |year| == 4 && AllDigits(year) && s == month + "/" + day + "/" + year {
      MatchSlashDateOf(month, day, year);
    }
  }

  /** A string the regex accepts holds only digits and slashes. */
  lemma SlashDateHasNoDash(s: string)
    requires MatchSlashDate(s).Some?
    ensures '-' !in s
  {
    MatchSlashDateParts(s);
    var sd := MatchSlashDate(s).value;
    assert '-' !in sd.month && '-' !in sd.day && '-' !in sd.year;
  }

  lemma ZFillPad2(s: string)
    requires |s| > 0
    ensures ZFill(s, 2) == Pad2(s)
  {
    if |s| == 1 {
      assert ZFill("0" + s, 2) == "0" + s;
    }
  }

  /** The `M/D/YYYY` rule, even for a 33-character input. */
  lemma CastDateSlash(month: string, day: string, year: string)
    requires |month| > 0 && AllDigits(month) && |day| > 0 && AllDigits(day)
    requires |year| == 4 && AllDigits(year)
    ensures CastDate(VStr(month + "/" + day + "/" + year)) ==
      Ok(VStr(year + "-" + Pad2(month) + "-" + Pad2(day)))
  {
    MatchSlashDateOf(month, day, year);
    ZFillPad2(month);
    ZFillPad2(day);
  }

  /** Every other non-empty string of a length other than 33 is kept as is. */
  lemma CastDateKeeps(s: string)
    requires s != "" && MatchSlashDate(s).None? && |s| != NETFILE_TIMESTAMP_LENGTH
    ensures CastDate(VStr(s)) == Ok(VStr(s))
  {
  }

  /** A 33-character string that is not `M/D/YYYY` keeps its first 19 characters. */
  lemma CastDateTruncates(s: string)
    requires |s| == NETFILE_TIMESTAMP_LENGTH && MatchSlashDate(s).None?
    ensures CastDate(VStr(s)) == Ok(VStr(s[..CATALOG_TIMESTAMP_LENGTH]))
  {
  }

  /** castDate never raises on None or a string, and raises on anything else;
      it maps exactly None and "" to None. */
  lemma CastDateDomain(v: Value)
    ensures CastDate(v).Ok? <==> (v.VNull? || v.VStr?)
    ensures CastDate(v) == Ok(VNull) <==> (v == VNull || v == VStr(""))
  {
    if v.VStr? && v.s != "" && MatchSlashDate(v.s).Some? {
      var sd := MatchSlashDate(v.s).value;
      assert CastDate(v).value.s == sd.year + "-" + ZFill(sd.month, 2) + "-" + ZFill(sd.day, 2);
    }
  }

  /** castDate never gives the empty string: "" becomes None, and every
      other string it returns has at least one character. */
  lemma CastDateNonEmpty(v: Value)
    ensures CastDate(v).Ok? && CastDate(v).value.VStr? ==> CastDate(v).value.s != ""
  {
    if v.VStr? && v.s != "" && MatchSlashDate(v.s).Some? {
      var sd := MatchSlashDate(v.s).value;
      assert CastDate(v).value.s == sd.year + "-" + ZFill(sd.month, 2) + "-" + ZFill(sd.day, 2);
    }
  }

  /** A value castDate leaves alone: casting it again changes nothing. */
  predicate CastStable(v: Value) {
    match v
    case VNull => true
    case VStr(s) => s != "" && MatchSlashDate(s).None? && |s| != NETFILE_TIMESTAMP_LENGTH
    case _ => false
  }

  lemma {:induction false} ZFillShape(s: string, width: nat)
    ensures |ZFill(s, width)| == if |s| >= width then |s| else width
    ensures forall i :: 0 <= i < |ZFill(s, width)| - |s| ==> ZFill(s, width)[i] == '0'
    ensures ZFill(s, width)[|ZFill(s, width)| - |s|..] == s
    decreases width - |s|
  {
    if |s| < width {
      var t := "0" + s;
      ZFillShape(t, width);
      var z := ZFill(s, width);
      assert z == ZFill(t, width);
      var k := |z| - |t|;
      assert z[k..] == t;
      assert z[k + 1..] == z[k..][1..];
      forall i | 0 <= i < |z| - |s| ensures z[i] == '0' {
        if i == k {
          assert z[i] == z[k..][0] == t[0];
        }
      }
    }
  }

  /** Schedule rows are cast after the join, so the columns copied from a cover
      row may be cast twice. A second cast changes the first cast's result
      exactly when that result is itself `M/D/YYYY` or 33 characters long. */
  lemma {:induction false} CastDateTwice(v: Value)
    requires CastDate(v).Ok?
    ensures CastDate(CastDate(v).value) == CastDate(v) <==> CastStable(CastDate(v).value)
  {
    var r := CastDate(v).value;
    if r.VStr? {
      var s := r.s;
      assert v.VStr? && v.s != "";
      match MatchSlashDate(v.s)
      case Some(SlashDate(month, day, year)) =>
        ZFillShape(month, 2);
        ZFillShape(day, 2);
        assert s[4] == '-';
        assert s != "";
      case None =>
    }
    if r.VStr? && r.s != "" && MatchSlashDate(r.s).Some? {
      var sd := MatchSlashDate(r.s).value;
      MatchSlashDateParts(r.s);
      SlashDateHasNoDash(r.s);
      var out := sd.year + "-" + ZFill(sd.month, 2) + "-" + ZFill(sd.day, 2);
      assert out[4] == '-';
      assert out != r.s;
    }
  }

  /** Both ways a second cast rewrites the first one's result are reachable:
      a 33-character string whose first 19 characters are `M/D/YYYY` ... */
  lemma TruncationExposesSlashDate(month: string, day: string, year: string, tail: string)
    requires |month| > 0 && AllDigits(month) && |day| > 0 && AllDigits(day)
    requires |year| == 4 && AllDigits(year)
    requires |month| + |day| == 13 && |tail| == 14
    ensures CastDate(VStr(month + "/" + day + "/" + year + tail)) == Ok(VStr(month + "/" + day + "/" + year))
    ensures !CastStable(VStr(month + "/" + day + "/" + year))
  {
    var prefix := month + "/" + day + "/" + year;
    SlashDateWithTail(month, day, year, tail);
    CastDateTruncates(prefix + tail);
    assert (prefix + tail)[..CATALOG_TIMESTAMP_LENGTH] == prefix;
    MatchSlashDateOf(month, day, year);
  }

  lemma SlashDateWithTail(month: string, day: string, year: string, tail: string)
    requires |month| > 0 && AllDigits(month) && |day| > 0 && AllDigits(day)
    requires |year| == 4 && tail != []
    ensures MatchSlashDate(month + "/" + day + "/" + year + tail).None?
  {
    var s := month + "/" + day + "/" + year + tail;
    assert s == month + ("/" + day + "/" + year + tail);
    DigitRunAll(month, "/" + day + "/" + year + tail);
    var rest := s[|month| + 1..];
    assert rest == day + ("/" + year + tail);
    DigitRunAll(day, "/" + year + tail);
    assert rest[|day| + 1..] == year + tail;
  }

  /** ... and a `M/D/YYYY` date whose groups are long enough to make the
      result 33 characters long. */
  lemma LongSlashDateReaches33(month: string, day: string, year: string)
    requires |month| >= 2 && AllDigits(month) && |day| >= 2 && AllDigits(day)
    requires |year| == 4 && AllDigits(year)
    requires |month| + |day| == 27
    ensures CastDate(VStr(month + "/" + day + "/" + year)) == Ok(VStr(year + "-" + month + "-" + day))
    ensures !CastStable(VStr(year + "-" + month + "-" + day))
  {
    CastDateSlash(month, day, year);
  }
}
