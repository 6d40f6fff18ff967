/** Categories, per-category target schemas, pickKeys and deal_with_dates. */
module Schemas {
  import opened Values
  import opened Dates

  /** The eight record streams, in the order `self.schedules` lists them. */
  datatype Category = Cover | Comments | ScheduleA1 | ScheduleA2 | ScheduleB | ScheduleC | ScheduleD | ScheduleE

  const CATEGORIES: seq<Category> :=
    [Cover, Comments, ScheduleA1, ScheduleA2, ScheduleB, ScheduleC, ScheduleD, ScheduleE]

  /** The key of a category in a schedule response and in the configuration. */
  function Name(c: Category): string {
    match c
    case Cover => "cover"
    case Comments => "comments"
    case ScheduleA1 => "scheduleA1"
    case ScheduleA2 => "scheduleA2"
    case ScheduleB => "scheduleB"
    case ScheduleC => "scheduleC"
    case ScheduleD => "scheduleD"
    case ScheduleE => "scheduleE"
  }

  /** One target column: its name and the type name the configuration gives it. */
  datatype Column = Column(name: string, kind: string)

  /** A category's schema: its columns in order (a dictionary, so no name twice). */
  type Schema = seq<Column>

  predicate Distinct<T(==)>(s: seq<T>) {
    forall i, j :: 0 <= i < j < |s| ==> s[i] != s[j]
  }

  lemma DistinctTail<T>(s: seq<T>)
    requires s != [] && Distinct(s)
    ensures Distinct(s[1..]) && s[0] !in s[1..]
  {
    forall i, j | 0 <= i < j < |s[1..]| ensures s[1..][i] != s[1..][j] {
      assert s[1..][i] == s[i + 1] && s[1..][j] == s[j + 1];
    }
    forall j | 0 <= j < |s[1..]| ensures s[1..][j] != s[0] {
      assert s[1..][j] == s[j + 1];
    }
  }

  function Columns(schema: Schema): (names: seq<string>)
    ensures |names| == |schema| && forall i :: 0 <= i < |schema| ==> names[i] == schema[i].name
  {
    if schema == [] then [] else [schema[0].name] + Columns(schema[1..])
  }

  predicate WellFormed(schema: Schema) {
    Distinct(Columns(schema))
  }

  /** The names of the columns typed "date", in schema order. */
  function DateColumns(schema: Schema): seq<string>
  {
    if schema == [] then []
    else
      var last := schema[|schema| - 1];
      DateColumns(schema[..|schema| - 1]) + (if last.kind == "date" then [last.name] else [])
  }

  /** The date columns are exactly the columns typed "date", each once, in
      schema order. */
  lemma {:induction false} DateColumnsSpec(schema: Schema)
    requires WellFormed(schema)
    ensures forall c :: c in DateColumns(schema) <==> Column(c, "date") in schema
    ensures Distinct(DateColumns(schema))
    ensures forall c :: c in DateColumns(schema) ==> c in Columns(schema)
    ensures |DateColumns(schema)| <= |schema|
  {
    if schema != [] {
      var init := schema[..|schema| - 1];
      var last := schema[|schema| - 1];
      assert Columns(schema) == Columns(init) + [last.name];
      DateColumnsSpec(init);
      assert schema == init + [last];
      assert last.name !in Columns(init);
    }
  }

  /** The inner loop of `__init__` that collects one category's date columns. */
  method CollectDateColumns(schema: Schema) returns (cols: seq<string>)
    ensures cols == DateColumns(schema)
  {
    cols := [];
    var i := 0;
    while i < |schema|
      invariant 0 <= i <= |schema|
      invariant cols == DateColumns(schema[..i])
    {
      assert schema[..i + 1][..i] == schema[..i];
      if schema[i].kind == "date" {
        cols := cols + [schema[i].name];
      }
      i := i + 1;
    }
    assert schema[..|schema|] == schema;
  }

  /** The first name of cols that the row lacks. */
  function FirstMissing(cols: seq<string>, m: Row): Option<string>
  {
    if cols == [] then None
    else if cols[0] !in m then Some(cols[0])
    else FirstMissing(cols[1..], m)
  }

  lemma {:induction false} FirstMissingSpec(cols: seq<string>, m: Row)
    ensures FirstMissing(cols, m).None? <==> forall c :: c in cols ==> c in m
    ensures FirstMissing(cols, m).Some? ==>
      exists i :: 0 <= i < |cols| && cols[i] == FirstMissing(cols, m).value &&
        cols[i] !in m && forall j :: 0 <= j < i ==> cols[j] in m
  {
    if cols != [] && cols[0] in m {
      FirstMissingSpec(cols[1..], m);
      assert forall c :: c in cols <==> c == cols[0] || c in cols[1..];
      if FirstMissing(cols, m).Some? {
        var i :| 0 <= i < |cols[1..]| && cols[1..][i] == FirstMissing(cols, m).value &&
          cols[1..][i] !in m && forall j :: 0 <= j < i ==> cols[1..][j] in m;
        assert cols[i + 1] == FirstMissing(cols, m).value;
        assert forall j :: 0 <= j < i + 1 ==> cols[j] in m by {
          forall j | 0 <= j < i + 1 ensures cols[j] in m {
            if j > 0 { assert cols[j] == cols[1..][j - 1]; }
          }
        }
      }
    } else if cols != [] {
      assert cols[0] == FirstMissing(cols, m).value;
    }
  }

  /** The row restricted to the named columns; the first missing name halts with a KeyError. */
  function PickColumns(cols: seq<string>, m: Row): Result<Row>
  {
    match FirstMissing(cols, m)
    case Some(k) => Err(KeyMissing(k))
    case None => Ok(map c | c in cols && c in m :: m[c])
  }

  /** Form700_Blocking.pickKeys: the row projected onto the schema's columns. */
  function PickKeys(schema: Schema, m: Row): Result<Row>
  {
    PickColumns(Columns(schema), m)
  }

  /** Projection keeps exactly the named columns, each with the input's value,
      and fails, on the first missing name, exactly when one is missing. */
  lemma PickColumnsSpec(cols: seq<string>, m: Row)
    ensures PickColumns(cols, m).Ok? <==> forall c :: c in cols ==> c in m
    ensures PickColumns(cols, m).Ok? ==>
      PickColumns(cols, m).value.Keys == set c | c in cols &&
      forall c :: c in PickColumns(cols, m).value ==> PickColumns(cols, m).value[c] == m[c]
    ensures PickColumns(cols, m).Err? ==>
      exists i :: 0 <= i < |cols| && PickColumns(cols, m).halt == KeyMissing(cols[i]) &&
        cols[i] !in m && forall j :: 0 <= j < i ==> cols[j] in m
  {
    FirstMissingSpec(cols, m);
  }

  lemma PickKeysSpec(schema: Schema, m: Row)
    ensures PickKeys(schema, m).Ok? <==> forall c :: c in Columns(schema) ==> c in m
    ensures PickKeys(schema, m).Ok? ==>
      PickKeys(schema, m).value.Keys == (set c | c in Columns(schema)) &&
      forall c :: c in PickKeys(schema, m).value ==> PickKeys(schema, m).value[c] == m[c]
  {
    PickColumnsSpec(Columns(schema), m);
  }

  /** Casting the named columns of a row in turn, as deal_with_dates does. */
  function CastColumns(cols: seq<string>, m: Row): Result<Row>
  {
    if cols == [] then Ok(m)
    else
      var v :- Lookup(m, cols[0]);
      var d :- CastDate(v);
      CastColumns(cols[1..], m[cols[0] := d])
  }

  /** deal_with_dates rewrites each named column with castDate and nothing
      else; it halts exactly when a named column is missing or castDate raises
      on one. */
  lemma {:induction false} CastColumnsSpec(cols: seq<string>, m: Row)
    requires Distinct(cols)
    ensures CastColumns(cols, m).Ok? <==>
      forall c :: c in cols ==> c in m && CastDate(m[c]).Ok?
    ensures CastColumns(cols, m).Ok? ==>
      var r := CastColumns(cols, m).value;
      r.Keys == m.Keys &&
      (forall c :: c in cols ==> r[c] == CastDate(m[c]).value) &&
      (forall k :: k in m && k !in cols ==> r[k] == m[k])
  {
    if cols != [] {
      var c0 := cols[0];
      assert forall c :: c in cols <==> c == c0 || c in cols[1..];
      assert c0 !in cols[1..] by {
        forall j | 0 <= j < |cols[1..]| ensures cols[1..][j] != c0 {
          assert cols[1..][j] == cols[j + 1];
        }
      }
      assert Distinct(cols[1..]) by {
        forall i, j | 0 <= i < j < |cols[1..]| ensures cols[1..][i] != cols[1..][j] {
          assert cols[1..][i] == cols[i + 1] && cols[1..][j] == cols[j + 1];
        }
      }
      if c0 in m && CastDate(m[c0]).Ok? {
        var m1 := m[c0 := CastDate(m[c0]).value];
        CastColumnsSpec(cols[1..], m1);
        assert forall c :: c in cols[1..] ==> (c in m1 <==> c in m) && (c in m ==> m1[c] == m[c]);
      }
    }
  }

  /** Form700_Blocking.deal_with_dates: the loop over the date columns. */
  method DealWithDates(dateCols: seq<string>, item: Row) returns (r: Result<Row>)
    ensures r == CastColumns(dateCols, item)
  {
    var row := item;
    var i := 0;
    while i < |dateCols|
      invariant 0 <= i <= |dateCols|
      invariant CastColumns(dateCols, item) == CastColumns(dateCols[i..], row)
    {
      assert dateCols[i..][1..] == dateCols[i + 1..];
      var col := dateCols[i];
      if col !in row {
        return Err(KeyMissing(col));
      }
      var cast := CastDate(row[col]);
      if cast.Err? {
        return Err(cast.halt);
      }
      row := row[col := cast.value];
      i := i + 1;
    }
    return Ok(row);
  }
}
