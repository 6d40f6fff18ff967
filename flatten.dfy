/** flattenOffices and flattenIncomeSources: nested lists rendered as one string. */
module Flatten {
  import opened Values

  /** The text between an office's position and its district. The f-string on
      netfile_client.py:154-155 ends its first line with a backslash, so the
      newline is dropped but the 28 spaces that indent the next line stay. */
  const OFFICE_SEPARATOR: string := " - " + Spaces(28)

  /** n space characters. */
  function Spaces(n: nat): string {
    if n == 0 then "" else " " + Spaces(n - 1)
  }

  /** One office rendered as text: its position, the separator, its district. */
  function OfficeEntry(office: Value): Result<string>
  {
    var position :- Field(office, "filerPosition");
    var positionText :- Str(position);
    var district :- Field(office, "filerDivisionBoardDistrict");
    var districtText :- Str(district);
    Ok(positionText + OFFICE_SEPARATOR + districtText)
  }

  /** Form700_Blocking.flattenOffices: one entry per office, space-joined. */
  function FlattenOffices(offices: Value): Result<string>
  {
    var xs :- Iterate(offices);
    var entries :- MapAll(xs, OfficeEntry);
    Ok(Join(" ", entries))
  }

  /** One income source rendered as text: its name. */
  function IncomeSourceName(source: Value): Result<string>
  {
    var name :- Field(source, "name");
    Str(name)
  }

  /** Form700_Blocking.flattenIncomeSources: the names, joined by "|". */
  function FlattenIncomeSources(sources: Value): Result<string>
  {
    var xs :- Iterate(sources);
    var names :- MapAll(xs, IncomeSourceName);
    Ok(Join("|", names))
  }

  lemma {:induction false} JoinLength(sep: string, xs: seq<string>)
    requires |xs| >= 1
    ensures |Join(sep, xs)| == |Concat(xs)| + (|xs| - 1) * |sep|
  {
    if |xs| > 1 {
      JoinLength(sep, xs[1..]);
    } else {
      assert Concat(xs) == xs[0] + Concat(xs[1..]);
    }
  }

  /** An office list flattens to one entry per office, in order: entry i is
      office i's position, the separator, and its district; consecutive entries
      are separated by one space; an empty list gives "". Any office that is not
      a record holding both fields halts. */
  lemma FlattenOfficesEntries(offices: seq<Value>)
    ensures FlattenOffices(VList(offices)).Ok? <==>
      forall i :: 0 <= i < |offices| ==> OfficeEntry(offices[i]).Ok?
    ensures FlattenOffices(VList(offices)).Ok? ==>
      exists entries: seq<string> ::
        |entries| == |offices| &&
        (forall i :: 0 <= i < |offices| ==>
           entries[i] == Str(offices[i].fields["filerPosition"]).value + OFFICE_SEPARATOR +
                         Str(offices[i].fields["filerDivisionBoardDistrict"]).value) &&
        FlattenOffices(VList(offices)).value == Join(" ", entries)
    ensures offices == [] ==> FlattenOffices(VList(offices)) == Ok("")
  {
    MapAllOk(offices, OfficeEntry);
    if FlattenOffices(VList(offices)).Ok? {
      var entries := MapAll(offices, OfficeEntry).value;
      forall i | 0 <= i < |offices|
        ensures entries[i] == Str(offices[i].fields["filerPosition"]).value + OFFICE_SEPARATOR +
                              Str(offices[i].fields["filerDivisionBoardDistrict"]).value
      {
        assert OfficeEntry(offices[i]).Ok?;
      }
    }
  }

  /** Income sources flatten to their names, in order, joined by "|"; an
      empty list gives "". Any source that is not a record with a printable
      `name` halts. */
  lemma FlattenIncomeSourcesNames(sources: seq<Value>)
    ensures FlattenIncomeSources(VList(sources)).Ok? <==>
      forall i :: 0 <= i < |sources| ==> IncomeSourceName(sources[i]).Ok?
    ensures FlattenIncomeSources(VList(sources)).Ok? ==>
      exists names: seq<string> ::
        |names| == |sources| &&
        (forall i :: 0 <= i < |sources| ==> names[i] == Str(sources[i].fields["name"]).value) &&
        FlattenIncomeSources(VList(sources)).value == Join("|", names)
    ensures sources == [] ==> FlattenIncomeSources(VList(sources)) == Ok("")
  {
    MapAllOk(sources, IncomeSourceName);
    if FlattenIncomeSources(VList(sources)).Ok? {
      var names := MapAll(sources, IncomeSourceName).value;
      forall i | 0 <= i < |sources|
        ensures names[i] == Str(sources[i].fields["name"]).value
      {
        assert IncomeSourceName(sources[i]).Ok?;
      }
    }
  }

  /** The flattened names give the names back when split at "|", as long as
      no name contains "|" (a single name or more). */
  lemma FlattenIncomeSourcesRoundTrip(sources: seq<Value>)
    requires |sources| >= 1
    requires forall i :: 0 <= i < |sources| ==>
      sources[i].VRecord? && "name" in sources[i].fields && Str(sources[i].fields["name"]).Ok? &&
      '|' !in Str(sources[i].fields["name"]).value
    ensures FlattenIncomeSources(VList(sources)).Ok?
    ensures |Split('|', FlattenIncomeSources(VList(sources)).value)| == |sources|
    ensures forall i :: 0 <= i < |sources| ==>
      Split('|', FlattenIncomeSources(VList(sources)).value)[i] == Str(sources[i].fields["name"]).value
  {
    forall i | 0 <= i < |sources| ensures IncomeSourceName(sources[i]).Ok? {
    }
    MapAllOk(sources, IncomeSourceName);
    var names := MapAll(sources, IncomeSourceName).value;
    forall i | 0 <= i < |sources|
      ensures names[i] == Str(sources[i].fields["name"]).value
    {
    }
    SplitJoin('|', names);
  }

  /** No income sources flatten to "", and so does an empty string or
      dictionary in their place; any other non-list value halts. */
  lemma FlattenIncomeSourcesEmpty(sources: Value)
    ensures FlattenIncomeSources(sources) == Ok("") <==>
      sources in {VList([]), VStr(""), VRecord(map[])} ||
      (sources.VList? && |sources.items| == 1 && IncomeSourceName(sources.items[0]) == Ok(""))
    ensures !sources.VList? && sources !in {VStr(""), VRecord(map[])} ==> FlattenIncomeSources(sources).Err?
  {
    if sources.VList? {
      var xs := sources.items;
      MapAllOk(xs, IncomeSourceName);
      if MapAll(xs, IncomeSourceName).Ok? {
        var names := MapAll(xs, IncomeSourceName).value;
        if |names| >= 2 {
          JoinLength("|", names);
        }
      }
    }
  }

  /** Two offices with string fields render as `p1 - <28 spaces>d1 p2 - <28 spaces>d2`,
      not as the plain `p1 - d1 p2 - d2`. */
  lemma FlattenTwoOffices(p1: string, d1: string, p2: string, d2: string)
    ensures FlattenOffices(VList([
        VRecord(map["filerPosition" := VStr(p1), "filerDivisionBoardDistrict" := VStr(d1)]),
        VRecord(map["filerPosition" := VStr(p2), "filerDivisionBoardDistrict" := VStr(d2)])])) ==
      Ok(p1 + " - " + Spaces(28) + d1 + " " + p2 + " - " + Spaces(28) + d2)
  {
    var o1 := VRecord(map["filerPosition" := VStr(p1), "filerDivisionBoardDistrict" := VStr(d1)]);
    var o2 := VRecord(map["filerPosition" := VStr(p2), "filerDivisionBoardDistrict" := VStr(d2)]);
    var e1, e2 := p1 + OFFICE_SEPARATOR + d1, p2 + OFFICE_SEPARATOR + d2;
    assert OfficeEntry(o1) == Ok(e1);
    assert OfficeEntry(o2) == Ok(e2);
    MapAllTwo(o1, o2, OfficeEntry);
    assert MapAll([o1, o2], OfficeEntry) == Ok([e1, e2]);
    assert Join(" ", [e1, e2]) == e1 + " " + e2 by {
      assert [e1, e2][1..] == [e2];
    }
    assert FlattenOffices(VList([o1, o2])) == Ok(e1 + " " + e2);
    assert e1 == p1 + " - " + Spaces(28) + d1;
    assert e2 == p2 + " - " + Spaces(28) + d2;
    assert e1 + " " + e2 == e1 + " " + p2 + " - " + Spaces(28) + d2;
  }

  /** Mapping a fallible step over two values that both succeed. */
  lemma MapAllTwo<X, Y>(x1: X, x2: X, f: X -> Result<Y>)
    requires f(x1).Ok? && f(x2).Ok?
    ensures MapAll([x1, x2], f) == Ok([f(x1).value, f(x2).value])
  {
    MapAllOne(x2, f);
    assert [x1, x2][0] == x1 && [x1, x2][1..] == [x2];
    assert [f(x1).value] + [f(x2).value] == [f(x1).value, f(x2).value];
  }
}
