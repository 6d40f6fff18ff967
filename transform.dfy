/** transformCoverResponse and transformScheduleResponse as functions of the
    state before a page and the page's JSON body. */
module Transform {
  import opened Values
  import opened Dates
  import opened Flatten
  import opened Schemas
  import opened Explode
  import opened Ledger

  /** The configuration the client keeps for a run: each category's schema and
      its date columns. */
  datatype Setup = Setup(schemas: map<Category, Schema>, dateColumns: map<Category, seq<string>>)

  /** Every category has a schema (a dictionary, so no column twice) and its
      date columns are the schema's columns typed "date". */
  ghost predicate Ready(setup: Setup) {
    forall c: Category ::
      c in setup.schemas && c in setup.dateColumns &&
      WellFormed(setup.schemas[c]) && setup.dateColumns[c] == DateColumns(setup.schemas[c]) &&
      Distinct(setup.dateColumns[c])
  }

  /** The filing fields that schedule items are joined with. */
  const FILER_COLUMNS: seq<string> :=
    ["filingId", "filerName", "departmentName", "positionName", "offices",
     "periodStart", "periodEnd", "filingDate"]

  // ---------------------------------------------------------------- counters

  /** The counter of bucket b takes t as its total. */
  function SetTotal(st: State, b: Bucket, t: Value): (st': State)
    requires Complete(st) && b in st.counters
    ensures Complete(st')
  {
    st.(counters := st.counters[b := st.counters[b].(total := t)])
  }

  /** A category received `received` items that became `rows`: both counts go
      to the category and, for a schedule, to `items`; the rows are appended
      to the category's store. */
  function Tallied(st: State, c: Category, received: int, rows: seq<Row>): (st': State)
    requires Complete(st)
    ensures Complete(st')
    ensures st'.filings == st.filings && st'.wasReset == st.wasReset
    ensures st'.data == st.data[c := st.data[c] + rows]
    ensures st'.counters[Of(c)] ==
      st.counters[Of(c)].(received := st.counters[Of(c)].received + received, send := st.counters[Of(c)].send + |rows|)
    ensures st'.counters[Items] ==
      if c == Cover then st.counters[Items]
      else st.counters[Items].(received := st.counters[Items].received + received, send := st.counters[Items].send + |rows|)
    ensures forall x: Category :: x != c ==> st'.counters[Of(x)] == st.counters[Of(x)]
  {
    var k := st.counters[Of(c)];
    var counters := st.counters[Of(c) := k.(received := k.received + received, send := k.send + |rows|)];
    var counters' :=
      if c == Cover then counters
      else
        var items := counters[Items];
        counters[Items := items.(received := items.received + received, send := items.send + |rows|)];
    st.(data := st.data[c := st.data[c] + rows], counters := counters')
  }

  /** The first half of a tally, `received += n`: for the category and, for a
      schedule, for `items`. */
  function ReceivedBy(st: State, c: Category, n: int): (st': State)
    requires Complete(st)
    ensures Complete(st')
  {
    var k := st.counters[Of(c)];
    var counters := st.counters[Of(c) := k.(received := k.received + n)];
    if c == Cover then st.(counters := counters)
    else
      var items := counters[Items];
      st.(counters := counters[Items := items.(received := items.received + n)])
  }

  /** The second half, `send += len(data)` and saveResponseTemp. */
  function SentBy(st: State, c: Category, rows: seq<Row>): (st': State)
    requires Complete(st)
    ensures Complete(st')
  {
    var k := st.counters[Of(c)];
    var counters := st.counters[Of(c) := k.(send := k.send + |rows|)];
    var counters' :=
      if c == Cover then counters
      else
        var items := counters[Items];
        counters[Items := items.(send := items.send + |rows|)];
    st.(data := st.data[c := st.data[c] + rows], counters := counters')
  }

  /** Counting what was received and then what is sent is the tally. */
  lemma TalliedInTwoSteps(st: State, c: Category, received: int, rows: seq<Row>)
    requires Complete(st)
    ensures SentBy(ReceivedBy(st, c, received), c, rows) == Tallied(st, c, received, rows)
  {
    var st' := SentBy(ReceivedBy(st, c, received), c, rows);
    var t := Tallied(st, c, received, rows);
    assert st'.data == t.data;
    assert st'.counters == t.counters;
  }

  /** Storing rows keeps the books balanced, provided a cover is stored as it
      was received. */
  lemma TalliedAccounted(st: State, c: Category, received: int, rows: seq<Row>)
    requires Accounted(st)
    requires c == Cover ==> received == |rows|
    ensures Accounted(Tallied(st, c, received, rows))
  {
    var st' := Tallied(st, c, received, rows);
    TalliedStores(st, c, received, rows);
    TalliedSums(st, c, received, rows);
  }

  lemma TalliedStores(st: State, c: Category, received: int, rows: seq<Row>)
    requires Accounted(st)
    ensures forall x: Category ::
      Tallied(st, c, received, rows).counters[Of(x)].send == |Tallied(st, c, received, rows).data[x]|
  {
    var st' := Tallied(st, c, received, rows);
    forall x: Category ensures st'.counters[Of(x)].send == |st'.data[x]| {
      if x != c {
        assert st'.data[x] == st.data[x];
      }
    }
  }

  lemma TalliedSums(st: State, c: Category, received: int, rows: seq<Row>)
    requires Accounted(st)
    ensures forall t: Tally :: Count(Tallied(st, c, received, rows).counters[Items], t) == Sum(Tallied(st, c, received, rows), SCHEDULES, t)
  {
    var st' := Tallied(st, c, received, rows);
    forall t: Tally ensures Count(st'.counters[Items], t) == Sum(st', SCHEDULES, t) {
      CategoriesListed();
      SumBump(st, st', SCHEDULES, t, c, match t case Received => received case Sent => |rows| case Created => 0);
    }
  }

  lemma SetTotalAccounted(st: State, b: Bucket, t: Value)
    requires Accounted(st) && b in st.counters
    ensures Accounted(SetTotal(st, b, t))
  {
    var st' := SetTotal(st, b, t);
    forall x: Tally ensures Count(st'.counters[Items], x) == Sum(st', SCHEDULES, x) {
      SumCounters(st, st', SCHEDULES, x);
    }
  }

  // ---------------------------------------------------------------- cover pages

  /** What one filing contributes: its join key, its filer record and its row. */
  datatype CoverOut = CoverOut(key: Value, filer: Row, row: Row)

  /** What the cover loop does with one filing of the page. */
  function CoverRow(dateCols: seq<string>, schema: Schema, filing: Value): Result<CoverOut>
  {
    var fields :- AsRecord(filing);
    var cast :- CastColumns(dateCols, fields);
    var offices :- Lookup(cast, "offices");
    var flat :- FlattenOffices(offices);
    var row := cast["offices" := VStr(flat)];
    var filer :- PickColumns(FILER_COLUMNS, row);
    var id :- Lookup(row, "filingId");
    var key :- HashKey(id);
    var out :- PickKeys(schema, row);
    Ok(CoverOut(key, filer, out))
  }

  function CoverRowOf(dateCols: seq<string>, schema: Schema): Value -> Result<CoverOut>
  {
    f => CoverRow(dateCols, schema, f)
  }

  /** The join table and the page's rows so far. */
  datatype Joined = Joined(filings: map<Value, Row>, rows: seq<Row>)

  /** The loop over a cover page's filings, from a given join table and rows;
      `rowOf` is the loop body. */
  function CoverRows(rowOf: Value -> Result<CoverOut>, filings: seq<Value>, acc: Joined): Result<Joined>
    decreases |filings|
  {
    if filings == [] then Ok(acc)
    else
      var out :- rowOf(filings[0]);
      CoverRows(rowOf, filings[1..], Joined(acc.filings[out.key := out.filer], acc.rows + [out.row]))
  }

  /** Form700_Blocking.transformCoverResponse as a function of the state. */
  function CoverPage(setup: Setup, st: State, json: Value, page: int): (r: Result<State>)
    requires Ready(setup) && Complete(st)
    ensures r.Ok? ==> Complete(r.value)
  {
    var st1 :- if page == 1 then
                 var t :- Field(json, "totalMatchingCount");
                 Ok(SetTotal(st, Of(Cover), t))
               else Ok(st);
    var listed :- Field(json, "filings");
    var filings :- Iterate(listed);
    var j :- CoverRows(CoverRowOf(setup.dateColumns[Cover], setup.schemas[Cover]), filings, Joined(st1.filings, []));
    Ok(Tallied(st1.(filings := j.filings), Cover, |j.rows|, j.rows))
  }

  /** The join table after a run of filings: a key is present iff it was
      before or some filing had it, the last filing with a key wins, and keys
      no filing had keep their records. */
  ghost predicate LastWins(before: map<Value, Row>, outs: seq<CoverOut>, after: map<Value, Row>) {
    (forall k :: k in after <==> k in before || exists i :: 0 <= i < |outs| && outs[i].key == k) &&
    (forall i :: 0 <= i < |outs| && (forall i' :: i < i' < |outs| ==> outs[i'].key != outs[i].key) ==>
       after[outs[i].key] == outs[i].filer) &&
    (forall k :: k in before && (forall i :: 0 <= i < |outs| ==> outs[i].key != k) ==> after[k] == before[k])
  }

  /** The stored rows of a run of filings, in order. */
  function RowsOf(outs: seq<CoverOut>): (rows: seq<Row>)
    ensures |rows| == |outs|
  {
    if outs == [] then [] else [outs[0].row] + RowsOf(outs[1..])
  }

  lemma {:induction false} RowsOfAt(outs: seq<CoverOut>, i: int)
    requires 0 <= i < |outs|
    ensures RowsOf(outs)[i] == outs[i].row
  {
    if i > 0 {
      RowsOfAt(outs[1..], i - 1);
    }
  }

  lemma LastWinsCons(before: map<Value, Row>, outs: seq<CoverOut>, after: map<Value, Row>)
    requires outs != []
    requires LastWins(before[outs[0].key := outs[0].filer], outs[1..], after)
    ensures LastWins(before, outs, after)
  {
    var o := outs[0];
    var mid := before[o.key := o.filer];
    var rest := outs[1..];
    forall k ensures k in after <==> k in before || exists i :: 0 <= i < |outs| && outs[i].key == k {
      if exists i :: 0 <= i < |rest| && rest[i].key == k {
        var i :| 0 <= i < |rest| && rest[i].key == k;
        assert outs[i + 1].key == k;
      }
      if exists i :: 0 <= i < |outs| && outs[i].key == k {
        var i :| 0 <= i < |outs| && outs[i].key == k;
        if i > 0 { assert rest[i - 1].key == k; }
      }
    }
    forall i | 0 <= i < |outs| && (forall i' :: i < i' < |outs| ==> outs[i'].key != outs[i].key)
      ensures after[outs[i].key] == outs[i].filer
    {
      if i > 0 {
        assert rest[i - 1] == outs[i];
        forall i' | i - 1 < i' < |rest| ensures rest[i'].key != rest[i - 1].key {
          assert rest[i'] == outs[i' + 1];
        }
      } else {
        forall i' | 0 <= i' < |rest| ensures rest[i'].key != o.key {
          assert rest[i'] == outs[i' + 1];
        }
      }
    }
    forall k | k in before && (forall i :: 0 <= i < |outs| ==> outs[i].key != k)
      ensures after[k] == before[k]
    {
      assert o.key != k;
      forall i | 0 <= i < |rest| ensures rest[i].key != k {
        assert rest[i] == outs[i + 1];
      }
    }
  }

  /** The cover loop halts iff some filing does. */
  lemma {:induction false} CoverRowsOk(rowOf: Value -> Result<CoverOut>, filings: seq<Value>, acc: Joined)
    ensures CoverRows(rowOf, filings, acc).Ok? <==> MapAll(filings, rowOf).Ok?
    decreases |filings|
  {
    if filings != [] && rowOf(filings[0]).Ok? {
      var o := rowOf(filings[0]).value;
      CoverRowsOk(rowOf, filings[1..], Joined(acc.filings[o.key := o.filer], acc.rows + [o.row]));
    }
  }

  lemma CoverRowsStep(rowOf: Value -> Result<CoverOut>, filings: seq<Value>, acc: Joined)
    requires filings != [] && MapAll(filings, rowOf).Ok?
    ensures rowOf(filings[0]).Ok? && MapAll(filings[1..], rowOf).Ok?
    ensures
      var o := rowOf(filings[0]).value;
      var outs := MapAll(filings, rowOf).value;
      outs != [] && outs[0] == o && outs[1..] == MapAll(filings[1..], rowOf).value &&
      CoverRows(rowOf, filings, acc) == CoverRows(rowOf, filings[1..], Joined(acc.filings[o.key := o.filer], acc.rows + [o.row]))
  {
    var o := rowOf(filings[0]).value;
    var outs := MapAll(filings, rowOf).value;
    assert outs == [o] + MapAll(filings[1..], rowOf).value;
  }

  /** Otherwise it appends one row per filing, in order. */
  lemma {:induction false} CoverRowsRows(rowOf: Value -> Result<CoverOut>, filings: seq<Value>, acc: Joined)
    requires MapAll(filings, rowOf).Ok?
    ensures CoverRows(rowOf, filings, acc).Ok?
    ensures CoverRows(rowOf, filings, acc).value.rows == acc.rows + RowsOf(MapAll(filings, rowOf).value)
    decreases |filings|
  {
    if filings == [] {
      assert acc.rows + [] == acc.rows;
    } else {
      CoverRowsStep(rowOf, filings, acc);
      var o := rowOf(filings[0]).value;
      var acc' := Joined(acc.filings[o.key := o.filer], acc.rows + [o.row]);
      CoverRowsRows(rowOf, filings[1..], acc');
      var rest := MapAll(filings[1..], rowOf).value;
      assert (acc.rows + [o.row]) + RowsOf(rest) == acc.rows + ([o.row] + RowsOf(rest));
    }
  }

  /** And every filing's filer record lands in the join table under its key,
      a later filing with the same key replacing an earlier one. */
  lemma {:induction false} CoverRowsTable(rowOf: Value -> Result<CoverOut>, filings: seq<Value>, acc: Joined)
    requires MapAll(filings, rowOf).Ok?
    ensures CoverRows(rowOf, filings, acc).Ok?
    ensures LastWins(acc.filings, MapAll(filings, rowOf).value, CoverRows(rowOf, filings, acc).value.filings)
    decreases |filings|
  {
    CoverRowsOk(rowOf, filings, acc);
    if filings != [] {
      CoverRowsStep(rowOf, filings, acc);
      var o := rowOf(filings[0]).value;
      var acc' := Joined(acc.filings[o.key := o.filer], acc.rows + [o.row]);
      CoverRowsTable(rowOf, filings[1..], acc');
      LastWinsCons(acc.filings, MapAll(filings, rowOf).value, CoverRows(rowOf, filings, acc).value.filings);
    }
  }

  /** Two filings with the same filingId: both rows are kept, in order, and the
      join table holds the later filing's record. */
  lemma CoverDuplicateKeepsLast(dateCols: seq<string>, schema: Schema, first: Value, second: Value, table: map<Value, Row>)
    requires CoverRow(dateCols, schema, first).Ok? && CoverRow(dateCols, schema, second).Ok?
    requires CoverRow(dateCols, schema, first).value.key == CoverRow(dateCols, schema, second).value.key
    ensures CoverRows(CoverRowOf(dateCols, schema), [first, second], Joined(table, [])) ==
      Ok(Joined(table[CoverRow(dateCols, schema, second).value.key := CoverRow(dateCols, schema, second).value.filer],
                [CoverRow(dateCols, schema, first).value.row, CoverRow(dateCols, schema, second).value.row]))
  {
    var f := CoverRowOf(dateCols, schema);
    var o1 := CoverRow(dateCols, schema, first).value;
    var o2 := CoverRow(dateCols, schema, second).value;
    assert f(first) == Ok(o1) && f(second) == Ok(o2);
    CoverRowsTwo(f, first, second, Joined(table, []));
    assert table[o1.key := o1.filer][o2.key := o2.filer] == table[o2.key := o2.filer];
    assert [] + [o1.row] + [o2.row] == [o1.row, o2.row];
  }

  /** The loop over two filings whose rows are both produced. */
  lemma CoverRowsTwo(rowOf: Value -> Result<CoverOut>, first: Value, second: Value, acc: Joined)
    requires rowOf(first).Ok? && rowOf(second).Ok?
    ensures
      var o1 := rowOf(first).value;
      var o2 := rowOf(second).value;
      CoverRows(rowOf, [first, second], acc) ==
        Ok(Joined(acc.filings[o1.key := o1.filer][o2.key := o2.filer], acc.rows + [o1.row] + [o2.row]))
  {
    var o1 := rowOf(first).value;
    assert [first, second][0] == first && [first, second][1..] == [second];
    assert [second][0] == second && [second][1..] == [];
    var o2 := rowOf(second).value;
    var j1 := Joined(acc.filings[o1.key := o1.filer], acc.rows + [o1.row]);
    assert CoverRows(rowOf, [first, second], acc) == CoverRows(rowOf, [second], j1);
    assert CoverRows(rowOf, [second], j1) == CoverRows(rowOf, [], Joined(j1.filings[o2.key := o2.filer], j1.rows + [o2.row]));
  }

  /** A filing row as stored and as joined: each date column cast, `offices`
      replaced by its flattened text, every other field as received; the
      stored row holds exactly the schema's columns and the join record
      exactly the filer columns. A schema that types `offices` as a date makes
      every filing halt: the cast gives None or a non-empty string, and
      neither is a list of offices. */
  lemma CoverRowSpec(dateCols: seq<string>, schema: Schema, filing: Value)
    requires Distinct(dateCols)
    ensures "offices" in dateCols ==> CoverRow(dateCols, schema, filing).Err?
    ensures CoverRow(dateCols, schema, filing).Ok? ==>
      filing.VRecord? && "offices" in filing.fields && FlattenOffices(filing.fields["offices"]).Ok? &&
      var out := CoverRow(dateCols, schema, filing).value;
      var f := filing.fields;
      out.row.Keys == (set c | c in Columns(schema)) &&
      out.filer.Keys == (set c | c in FILER_COLUMNS) &&
      "filingId" in out.filer && HashKey(out.filer["filingId"]).Ok? &&
      out.key == HashKey(out.filer["filingId"]).value &&
      (forall c :: c in dateCols ==> c in f && CastDate(f[c]).Ok?) &&
      forall c :: (c in out.row || c in out.filer) ==>
        c in f &&
        var v := if c == "offices" then VStr(FlattenOffices(f["offices"]).value)
                 else if c in dateCols then CastDate(f[c]).value
                 else f[c];
        (c in out.row ==> out.row[c] == v) && (c in out.filer ==> out.filer[c] == v)
    ensures !filing.VRecord? ==> CoverRow(dateCols, schema, filing) == Err(TypeMismatch)
  {
    if "offices" in dateCols && filing.VRecord? {
      CastColumnsSpec(dateCols, filing.fields);
      if CastColumns(dateCols, filing.fields).Ok? {
        CastDateNonEmpty(filing.fields["offices"]);
      }
    }
    if CoverRow(dateCols, schema, filing).Ok? {
      var f := filing.fields;
      CastColumnsSpec(dateCols, f);
      var cast := CastColumns(dateCols, f).value;
      var row := cast["offices" := VStr(FlattenOffices(cast["offices"]).value)];
      PickColumnsSpec(FILER_COLUMNS, row);
      PickKeysSpec(schema, row);
      assert "filingId" in FILER_COLUMNS;
    }
  }

  /** A cover page keeps the books balanced; it adds the page's filing count
      to the cover's `received` and `send`, appends to the cover store each
      filing's row in page order, lays each filing's filer record into the
      join table (a later filing with the same filingId replacing an earlier
      one, other records kept), sets the cover total only on page 1, and
      touches no schedule category, no `items` counter and no reset flag. */
  lemma CoverPageSpec(setup: Setup, st: State, json: Value, page: int)
    requires Ready(setup) && Accounted(st)
    ensures CoverPage(setup, st, json, page).Ok? ==>
      var st' := CoverPage(setup, st, json, page).value;
      json.VRecord? && "filings" in json.fields && Iterate(json.fields["filings"]).Ok? &&
      var n := |Iterate(json.fields["filings"]).value|;
      Accounted(st') &&
      st'.counters[Of(Cover)].received == st.counters[Of(Cover)].received + n &&
      st'.counters[Of(Cover)].send == st.counters[Of(Cover)].send + n &&
      st'.counters[Of(Cover)].created == st.counters[Of(Cover)].created &&
      |st'.data[Cover]| == |st.data[Cover]| + n && st'.data[Cover][..|st.data[Cover]|] == st.data[Cover] &&
      (page == 1 ==> "totalMatchingCount" in json.fields &&
                     st'.counters[Of(Cover)].total == json.fields["totalMatchingCount"]) &&
      (page != 1 ==> st'.counters[Of(Cover)].total == st.counters[Of(Cover)].total) &&
      st'.counters[Items] == st.counters[Items] && st'.wasReset == st.wasReset &&
      forall c: Category :: c != Cover ==> st'.data[c] == st.data[c] && st'.counters[Of(c)] == st.counters[Of(c)]
    ensures CoverPage(setup, st, json, page).Ok? ==>
      var st' := CoverPage(setup, st, json, page).value;
      var filings := Iterate(json.fields["filings"]).value;
      var rowOf := CoverRowOf(setup.dateColumns[Cover], setup.schemas[Cover]);
      MapAll(filings, rowOf).Ok? &&
      st'.data[Cover] == st.data[Cover] + RowsOf(MapAll(filings, rowOf).value) &&
      (forall i :: 0 <= i < |filings| ==>
         CoverRow(setup.dateColumns[Cover], setup.schemas[Cover], filings[i]).Ok? &&
         st'.data[Cover][|st.data[Cover]| + i] == CoverRow(setup.dateColumns[Cover], setup.schemas[Cover], filings[i]).value.row) &&
      LastWins(st.filings, MapAll(filings, rowOf).value, st'.filings)
  {
    CoverPageBooks(setup, st, json, page);
    CoverPageRows(setup, st, json, page);
  }

  /** The counters and stores of a cover page. */
  lemma CoverPageBooks(setup: Setup, st: State, json: Value, page: int)
    requires Ready(setup) && Accounted(st)
    ensures CoverPage(setup, st, json, page).Ok? ==>
      var st' := CoverPage(setup, st, json, page).value;
      json.VRecord? && "filings" in json.fields && Iterate(json.fields["filings"]).Ok? &&
      var n := |Iterate(json.fields["filings"]).value|;
      Accounted(st') &&
      st'.counters[Of(Cover)].received == st.counters[Of(Cover)].received + n &&
      st'.counters[Of(Cover)].send == st.counters[Of(Cover)].send + n &&
      st'.counters[Of(Cover)].created == st.counters[Of(Cover)].created &&
      |st'.data[Cover]| == |st.data[Cover]| + n && st'.data[Cover][..|st.data[Cover]|] == st.data[Cover] &&
      (page == 1 ==> "totalMatchingCount" in json.fields &&
                     st'.counters[Of(Cover)].total == json.fields["totalMatchingCount"]) &&
      (page != 1 ==> st'.counters[Of(Cover)].total == st.counters[Of(Cover)].total) &&
      st'.counters[Items] == st.counters[Items] && st'.wasReset == st.wasReset &&
      forall c: Category :: c != Cover ==> st'.data[c] == st.data[c] && st'.counters[Of(c)] == st.counters[Of(c)]
  {
    if CoverPage(setup, st, json, page).Ok? {
      var st1 := if page == 1 then SetTotal(st, Of(Cover), json.fields["totalMatchingCount"]) else st;
      if page == 1 { SetTotalAccounted(st, Of(Cover), json.fields["totalMatchingCount"]); }
      var filings := Iterate(json.fields["filings"]).value;
      var rowOf := CoverRowOf(setup.dateColumns[Cover], setup.schemas[Cover]);
      CoverRowsOk(rowOf, filings, Joined(st1.filings, []));
      CoverRowsRows(rowOf, filings, Joined(st1.filings, []));
      MapAllOk(filings, rowOf);
      var j := CoverRows(rowOf, filings, Joined(st1.filings, [])).value;
      var st2 := st1.(filings := j.filings);
      assert Accounted(st2) by {
        forall t: Tally ensures Count(st2.counters[Items], t) == Sum(st2, SCHEDULES, t) {
          SumCounters(st1, st2, SCHEDULES, t);
        }
      }
      TalliedAccounted(st2, Cover, |j.rows|, j.rows);
    }
  }

  /** The rows and join records of a cover page. */
  lemma CoverPageRows(setup: Setup, st: State, json: Value, page: int)
    requires Ready(setup) && Accounted(st)
    ensures CoverPage(setup, st, json, page).Ok? ==>
      json.VRecord? && "filings" in json.fields && Iterate(json.fields["filings"]).Ok? &&
      var st' := CoverPage(setup, st, json, page).value;
      var filings := Iterate(json.fields["filings"]).value;
      var rowOf := CoverRowOf(setup.dateColumns[Cover], setup.schemas[Cover]);
      MapAll(filings, rowOf).Ok? && |MapAll(filings, rowOf).value| == |filings| &&
      st'.data[Cover] == st.data[Cover] + RowsOf(MapAll(filings, rowOf).value) &&
      (forall i :: 0 <= i < |filings| ==>
         CoverRow(setup.dateColumns[Cover], setup.schemas[Cover], filings[i]).Ok? &&
         RowsOf(MapAll(filings, rowOf).value)[i] == CoverRow(setup.dateColumns[Cover], setup.schemas[Cover], filings[i]).value.row) &&
      LastWins(st.filings, MapAll(filings, rowOf).value, st'.filings)
  {
    if CoverPage(setup, st, json, page).Ok? {
      var st1 := if page == 1 then SetTotal(st, Of(Cover), json.fields["totalMatchingCount"]) else st;
      var filings := Iterate(json.fields["filings"]).value;
      var rowOf := CoverRowOf(setup.dateColumns[Cover], setup.schemas[Cover]);
      CoverRowsOk(rowOf, filings, Joined(st1.filings, []));
      CoverRowsRows(rowOf, filings, Joined(st1.filings, []));
      CoverRowsTable(rowOf, filings, Joined(st1.filings, []));
      MapAllOk(filings, rowOf);
      var j := CoverRows(rowOf, filings, Joined(st1.filings, [])).value;
      var outs := MapAll(filings, rowOf).value;
      assert j.rows == RowsOf(outs);
      forall i | 0 <= i < |filings|
        ensures RowsOf(outs)[i] == CoverRow(setup.dateColumns[Cover], setup.schemas[Cover], filings[i]).value.row
      {
        RowsOfAt(outs, i);
      }
    }
  }

  // ---------------------------------------------------------------- schedule pages

  /** The join of a schedule item with its filing: the item's fields with its
      filing's record laid over them. A missing `filingId` or an unknown filing
      is the "missing a filing record" halt. */
  function JoinFiling(filings: map<Value, Row>, item: Value): Result<Row>
  {
    var fields :- AsRecord(item);
    var id :- if "filingId" in fields then Ok(fields["filingId"]) else Err(UnknownFiling);
    var key :- HashKey(id);
    if key in filings then Ok(fields + filings[key]) else Err(UnknownFiling)
  }

  /** The join succeeds exactly for a record whose hashable filingId names a
      known filing, and then every filer field overrides the item's own. */
  lemma JoinFilingSpec(filings: map<Value, Row>, item: Value)
    ensures JoinFiling(filings, item).Ok? <==>
      item.VRecord? && "filingId" in item.fields && HashKey(item.fields["filingId"]).Ok? &&
      HashKey(item.fields["filingId"]).value in filings
    ensures (item.VRecord? && "filingId" in item.fields && HashKey(item.fields["filingId"]).Ok? &&
             HashKey(item.fields["filingId"]).value !in filings) ==> JoinFiling(filings, item) == Err(UnknownFiling)
    ensures item.VRecord? && "filingId" !in item.fields ==> JoinFiling(filings, item) == Err(UnknownFiling)
    ensures JoinFiling(filings, item).Ok? ==>
      var filer := filings[HashKey(item.fields["filingId"]).value];
      var r := JoinFiling(filings, item).value;
      r.Keys == item.fields.Keys + filer.Keys &&
      forall c :: c in r ==> r[c] == if c in filer then filer[c] else item.fields[c]
  {
  }

  /** Schedules A2, B and C carry a list of income sources to flatten. */
  predicate HasIncomeSources(c: Category) {
    c == ScheduleA2 || c == ScheduleB || c == ScheduleC
  }

  function FlattenSources(c: Category, row: Row): Result<Row>
  {
    if HasIncomeSources(c) then
      var sources :- Lookup(row, "incomeSources");
      var flat :- FlattenIncomeSources(sources);
      Ok(row["incomeSources" := VStr(flat)])
    else Ok(row)
  }

  /** The rows one joined item becomes before its dates are cast. */
  function Shaped(c: Category, schema: Schema, row: Row): Result<seq<Row>>
  {
    match c
    case ScheduleA2 => ExplodeA2Rows(schema, row)
    case ScheduleB =>
      var r :- ExplodeBRow(schema, row);
      Ok([r])
    case ScheduleD => ExplodeDRows(schema, row)
    case _ =>
      var r :- PickKeys(schema, row);
      Ok([r])
  }

  function CastRowOf(dateCols: seq<string>): Row -> Result<Row>
  {
    r => CastColumns(dateCols, r)
  }

  /** The body of the loop over one category's items. */
  function ItemRows(c: Category, schema: Schema, dateCols: seq<string>, filings: map<Value, Row>, item: Value): Result<seq<Row>>
  {
    var joined :- JoinFiling(filings, item);
    var flat :- FlattenSources(c, joined);
    var shaped :- Shaped(c, schema, flat);
    MapAll(shaped, CastRowOf(dateCols))
  }

  function ItemRowsOf(c: Category, schema: Schema, dateCols: seq<string>, filings: map<Value, Row>): Value -> Result<seq<Row>>
  {
    item => ItemRows(c, schema, dateCols, filings, item)
  }

  /** The loop body of a schedule page for each category, against the join
      table as the page found it (the page never changes it); a category with
      no schema halts, as the dictionary lookups would. */
  function PageRowsOf(setup: Setup, filings: map<Value, Row>): Category -> Value -> Result<seq<Row>>
  {
    c => if c in setup.schemas && c in setup.dateColumns
         then ItemRowsOf(c, setup.schemas[c], setup.dateColumns[c], filings)
         else item => Err(KeyMissing(Name(c)))
  }

  /** The loop over one category's items, appending to the rows so far;
      `rowsOf` is the loop body. */
  function CategoryRows(rowsOf: Value -> Result<seq<Row>>, items: seq<Value>, acc: seq<Row>): Result<seq<Row>>
    decreases |items|
  {
    if items == [] then Ok(acc)
    else
      var rows :- rowsOf(items[0]);
      CategoryRows(rowsOf, items[1..], acc + rows)
  }

  /** The items a schedule page lists under the category's name. */
  function Listed(json: Value, c: Category): Result<seq<Value>>
  {
    var listed :- Field(json, Name(c));
    Iterate(listed)
  }

  /** The start of each category's turn: on page 1, `items.total` is
      (re)set from the page's `totalMatchingCount`; nothing else changes. */
  function ItemsTotal(st: State, json: Value, page: int): (r: Result<State>)
    requires Complete(st)
    ensures page != 1 ==> r == Ok(st)
    ensures r.Ok? ==>
      Complete(r.value) && r.value.data == st.data && r.value.filings == st.filings &&
      r.value.wasReset == st.wasReset &&
      (forall x: Category :: r.value.counters[Of(x)] == st.counters[Of(x)]) &&
      r.value.counters[Items].(total := st.counters[Items].total) == st.counters[Items] &&
      (page == 1 ==> Field(json, "totalMatchingCount") == Ok(r.value.counters[Items].total))
  {
    if page == 1 then
      var t :- Field(json, "totalMatchingCount");
      Ok(SetTotal(st, Items, t))
    else Ok(st)
  }

  lemma ItemsTotalAccounted(st: State, json: Value, page: int)
    requires Accounted(st)
    ensures ItemsTotal(st, json, page).Ok? ==> Accounted(ItemsTotal(st, json, page).value)
  {
    if page == 1 && ItemsTotal(st, json, page).Ok? {
      SetTotalAccounted(st, Items, json.fields["totalMatchingCount"]);
    }
  }

  /** One category of a schedule page: the `items` total on page 1, then, if
      the category has items, its counts and rows. */
  function ScheduleCategory(rowsOf: Category -> Value -> Result<seq<Row>>, st: State, json: Value, page: int, c: Category): (r: Result<State>)
    requires Complete(st)
    ensures r.Ok? ==> Complete(r.value)
  {
    var st1 :- ItemsTotal(st, json, page);
    var items :- Listed(json, c);
    CategoryItems(rowsOf(c), st1, c, items)
  }

  /** The rest of a category's turn, once its items are listed: nothing if
      there are none, else the tally of the items and their rows. */
  function CategoryItems(rowsOf: Value -> Result<seq<Row>>, st: State, c: Category, items: seq<Value>): (r: Result<State>)
    requires Complete(st)
    ensures r.Ok? ==> Complete(r.value)
  {
    if items == [] then Ok(st)
    else
      var rows :- CategoryRows(rowsOf, items, []);
      Ok(Tallied(st, c, |items|, rows))
  }

  function ScheduleCategories(rowsOf: Category -> Value -> Result<seq<Row>>, st: State, json: Value, page: int, cats: seq<Category>): (r: Result<State>)
    requires Complete(st)
    ensures r.Ok? ==> Complete(r.value)
    decreases |cats|
  {
    if cats == [] then Ok(st)
    else
      var st1 :- ScheduleCategory(rowsOf, st, json, page, cats[0]);
      ScheduleCategories(rowsOf, st1, json, page, cats[1..])
  }

  /** The categories' loop halts where the first category halts, and
      otherwise goes on from that category's state with the rest. */
  lemma ScheduleCategoriesStep(rowsOf: Category -> Value -> Result<seq<Row>>, st: State, json: Value, page: int, cats: seq<Category>)
    requires Complete(st) && cats != []
    ensures ScheduleCategory(rowsOf, st, json, page, cats[0]).Err? ==>
      ScheduleCategories(rowsOf, st, json, page, cats) == Err(ScheduleCategory(rowsOf, st, json, page, cats[0]).halt)
    ensures ScheduleCategory(rowsOf, st, json, page, cats[0]).Ok? ==>
      ScheduleCategories(rowsOf, st, json, page, cats) ==
        ScheduleCategories(rowsOf, ScheduleCategory(rowsOf, st, json, page, cats[0]).value, json, page, cats[1..])
  {
  }

  /** Form700_Blocking.transformScheduleResponse as a function of the state. */
  function SchedulePage(setup: Setup, st: State, json: Value, page: int): (r: Result<State>)
    requires Complete(st)
    ensures r.Ok? ==> Complete(r.value)
  {
    ScheduleCategories(PageRowsOf(setup, st.filings), st, json, page, SCHEDULES)
  }

  // ---------------------------------------------------------------- schedule lemmas

  /** The item loop halts iff some item does, and otherwise appends the
      items' rows, item by item and in order. */
  lemma {:induction false} CategoryRowsSpec(rowsOf: Value -> Result<seq<Row>>, items: seq<Value>, acc: seq<Row>)
    ensures CategoryRows(rowsOf, items, acc).Ok? <==> MapAll(items, rowsOf).Ok?
    ensures CategoryRows(rowsOf, items, acc).Ok? ==>
      CategoryRows(rowsOf, items, acc).value == acc + Concat(MapAll(items, rowsOf).value)
    decreases |items|
  {
    if items == [] {
      assert acc + [] == acc;
    } else if rowsOf(items[0]).Ok? {
      var rows := rowsOf(items[0]).value;
      CategoryRowsSpec(rowsOf, items[1..], acc + rows);
      if MapAll(items[1..], rowsOf).Ok? {
        var rest := MapAll(items[1..], rowsOf).value;
        assert MapAll(items, rowsOf).value == [rows] + rest;
        assert ([rows] + rest)[1..] == rest;
        assert (acc + rows) + Concat(rest) == acc + (rows + Concat(rest));
      }
    }
  }

  /** One item becomes its shaped rows with their dates cast: it halts iff
      the join, the income-source flattening, the shaping or a cast does, and
      otherwise yields one row per shaped row, in order. */
  lemma ItemRowsSpec(c: Category, schema: Schema, dateCols: seq<string>, filings: map<Value, Row>, item: Value)
    ensures ItemRows(c, schema, dateCols, filings, item).Ok? <==>
      JoinFiling(filings, item).Ok? &&
      FlattenSources(c, JoinFiling(filings, item).value).Ok? &&
      Shaped(c, schema, FlattenSources(c, JoinFiling(filings, item).value).value).Ok? &&
      var shaped := Shaped(c, schema, FlattenSources(c, JoinFiling(filings, item).value).value).value;
      forall i :: 0 <= i < |shaped| ==> CastColumns(dateCols, shaped[i]).Ok?
    ensures ItemRows(c, schema, dateCols, filings, item).Ok? ==>
      var shaped := Shaped(c, schema, FlattenSources(c, JoinFiling(filings, item).value).value).value;
      var rows := ItemRows(c, schema, dateCols, filings, item).value;
      |rows| == |shaped| && forall i :: 0 <= i < |shaped| ==> rows[i] == CastColumns(dateCols, shaped[i]).value
  {
    if JoinFiling(filings, item).Ok? && FlattenSources(c, JoinFiling(filings, item).value).Ok? &&
       Shaped(c, schema, FlattenSources(c, JoinFiling(filings, item).value).value).Ok? {
      var shaped := Shaped(c, schema, FlattenSources(c, JoinFiling(filings, item).value).value).value;
      MapAllOk(shaped, CastRowOf(dateCols));
    }
  }

  /** An item whose filing is unknown halts the run. */
  lemma ItemUnknownFiling(c: Category, schema: Schema, dateCols: seq<string>, filings: map<Value, Row>, item: Value)
    requires item.VRecord?
    requires "filingId" !in item.fields ||
      (HashKey(item.fields["filingId"]).Ok? && HashKey(item.fields["filingId"]).value !in filings)
    ensures ItemRows(c, schema, dateCols, filings, item) == Err(UnknownFiling)
  {
  }

  /** Comments and schedules A1, C and E: one row per item, holding exactly
      the schema's columns; each column holds the joined item's value (the
      filing's record over the item's fields, the income sources of C
      flattened), cast when it is a date column. */
  lemma PlainItemRow(c: Category, schema: Schema, dateCols: seq<string>, filings: map<Value, Row>, item: Value)
    requires c == Comments || c == ScheduleA1 || c == ScheduleC || c == ScheduleE
    requires Distinct(dateCols) && forall d :: d in dateCols ==> d in Columns(schema)
    ensures ItemRows(c, schema, dateCols, filings, item).Ok? ==>
      JoinFiling(filings, item).Ok? && FlattenSources(c, JoinFiling(filings, item).value).Ok? &&
      var joined := FlattenSources(c, JoinFiling(filings, item).value).value;
      var rows := ItemRows(c, schema, dateCols, filings, item).value;
      |rows| == 1 && rows[0].Keys == (set col | col in Columns(schema)) &&
      forall col :: col in rows[0] ==>
        col in joined &&
        (col in dateCols ==> CastDate(joined[col]).Ok? && rows[0][col] == CastDate(joined[col]).value) &&
        (col !in dateCols ==> rows[0][col] == joined[col])
  {
    ItemRowsSpec(c, schema, dateCols, filings, item);
    if ItemRows(c, schema, dateCols, filings, item).Ok? {
      var joined := FlattenSources(c, JoinFiling(filings, item).value).value;
      PickKeysSpec(schema, joined);
      var picked := PickKeys(schema, joined).value;
      CastColumnsSpec(dateCols, picked);
    }
  }

  /** Storing no rows for no items changes nothing. */
  lemma TalliedNothing(st: State, c: Category)
    requires Complete(st)
    ensures Tallied(st, c, 0, []) == st
  {
    var st' := Tallied(st, c, 0, []);
    assert st.data[c] + [] == st.data[c];
    assert st'.data == st.data;
    assert st'.counters == st.counters;
  }

  /** A successful category turn is the tally of its items and their rows
      onto the state after the page-1 total. */
  lemma ScheduleCategoryShape(rowsOf: Category -> Value -> Result<seq<Row>>, st: State, json: Value, page: int, c: Category)
    requires Complete(st)
    ensures ScheduleCategory(rowsOf, st, json, page, c).Ok? ==>
      ItemsTotal(st, json, page).Ok? && Listed(json, c).Ok? &&
      CategoryRows(rowsOf(c), Listed(json, c).value, []).Ok? &&
      ScheduleCategory(rowsOf, st, json, page, c).value ==
        Tallied(ItemsTotal(st, json, page).value, c, |Listed(json, c).value|,
                CategoryRows(rowsOf(c), Listed(json, c).value, []).value)
  {
    var r := ScheduleCategory(rowsOf, st, json, page, c);
    if r.Ok? {
      var items := Listed(json, c).value;
      if items == [] {
        var f := rowsOf(c);
        assert CategoryRows(f, items, []) == Ok([]);
        TalliedNothing(ItemsTotal(st, json, page).value, c);
      }
    }
  }

  /** A schedule category on a page keeps the books balanced, sets
      `items.total` only on page 1 and changes no other category, nor the join
      table or the reset flags. */
  lemma ScheduleCategoryBooks(rowsOf: Category -> Value -> Result<seq<Row>>, st: State, json: Value, page: int, c: Category)
    requires Accounted(st) && c != Cover
    ensures ScheduleCategory(rowsOf, st, json, page, c).Ok? ==>
      var st' := ScheduleCategory(rowsOf, st, json, page, c).value;
      Accounted(st') && st'.filings == st.filings && st'.wasReset == st.wasReset &&
      st'.counters[Items].created == st.counters[Items].created &&
      (page == 1 ==> Field(json, "totalMatchingCount") == Ok(st'.counters[Items].total)) &&
      (page != 1 ==> st'.counters[Items].total == st.counters[Items].total) &&
      forall x: Category :: x != c ==> st'.data[x] == st.data[x] && st'.counters[Of(x)] == st.counters[Of(x)]
  {
    ScheduleCategoryShape(rowsOf, st, json, page, c);
    if ScheduleCategory(rowsOf, st, json, page, c).Ok? {
      ItemsTotalAccounted(st, json, page);
      var st1 := ItemsTotal(st, json, page).value;
      var items := Listed(json, c).value;
      var rows := CategoryRows(rowsOf(c), items, []).value;
      TalliedAccounted(st1, c, |items|, rows);
    }
  }

  /** A schedule category on a page: its `received` grows by its item count
      and its store by exactly the rows its items become. */
  lemma ScheduleCategoryRows(rowsOf: Category -> Value -> Result<seq<Row>>, st: State, json: Value, page: int, c: Category)
    requires Complete(st)
    ensures ScheduleCategory(rowsOf, st, json, page, c).Ok? ==>
      var st' := ScheduleCategory(rowsOf, st, json, page, c).value;
      Listed(json, c).Ok? &&
      var items := Listed(json, c).value;
      CategoryRows(rowsOf(c), items, []).Ok? &&
      st'.data[c] == st.data[c] + CategoryRows(rowsOf(c), items, []).value &&
      st'.counters[Of(c)].received == st.counters[Of(c)].received + |items| &&
      st'.counters[Of(c)].created == st.counters[Of(c)].created &&
      st'.counters[Of(c)].total == st.counters[Of(c)].total
  {
    ScheduleCategoryShape(rowsOf, st, json, page, c);
  }

  /** The categories of a schedule page, one after another, keep the books
      balanced and leave every other category alone. */
  lemma {:induction false} ScheduleCategoriesBooks(rowsOf: Category -> Value -> Result<seq<Row>>, st: State, json: Value, page: int, cats: seq<Category>)
    requires Accounted(st) && Cover !in cats
    ensures ScheduleCategories(rowsOf, st, json, page, cats).Ok? ==>
      var st' := ScheduleCategories(rowsOf, st, json, page, cats).value;
      Accounted(st') && st'.filings == st.filings && st'.wasReset == st.wasReset &&
      st'.counters[Items].created == st.counters[Items].created &&
      (page == 1 && cats != [] ==> Field(json, "totalMatchingCount") == Ok(st'.counters[Items].total)) &&
      (page != 1 || cats == [] ==> st'.counters[Items].total == st.counters[Items].total) &&
      forall x: Category :: x !in cats ==> st'.data[x] == st.data[x] && st'.counters[Of(x)] == st.counters[Of(x)]
    decreases |cats|
  {
    if cats != [] && ScheduleCategories(rowsOf, st, json, page, cats).Ok? {
      var c := cats[0];
      var rest := cats[1..];
      ScheduleCategoryBooks(rowsOf, st, json, page, c);
      var st1 := ScheduleCategory(rowsOf, st, json, page, c).value;
      assert forall x :: x in cats <==> x == c || x in rest;
      ScheduleCategoriesBooks(rowsOf, st1, json, page, rest);
    }
  }

  /** The categories of a schedule page, one after another: each one's
      `received` grows by its item count and its store by exactly its rows. */
  lemma {:induction false} ScheduleCategoriesRows(rowsOf: Category -> Value -> Result<seq<Row>>, st: State, json: Value, page: int, cats: seq<Category>, c: Category)
    requires Accounted(st) && Distinct(cats) && Cover !in cats && c in cats
    ensures ScheduleCategories(rowsOf, st, json, page, cats).Ok? ==>
      var st' := ScheduleCategories(rowsOf, st, json, page, cats).value;
      Listed(json, c).Ok? &&
      var items := Listed(json, c).value;
      CategoryRows(rowsOf(c), items, []).Ok? &&
      st'.data[c] == st.data[c] + CategoryRows(rowsOf(c), items, []).value &&
      st'.counters[Of(c)].received == st.counters[Of(c)].received + |items| &&
      st'.counters[Of(c)].created == st.counters[Of(c)].created &&
      st'.counters[Of(c)].total == st.counters[Of(c)].total
    decreases |cats|
  {
    if ScheduleCategories(rowsOf, st, json, page, cats).Ok? {
      var rest := cats[1..];
      ScheduleCategoryBooks(rowsOf, st, json, page, cats[0]);
      var st1 := ScheduleCategory(rowsOf, st, json, page, cats[0]).value;
      DistinctTail(cats);
      if c == cats[0] {
        ScheduleCategoryRows(rowsOf, st, json, page, c);
        ScheduleCategoriesBooks(rowsOf, st1, json, page, rest);
      } else {
        assert c in rest;
        ScheduleCategoriesRows(rowsOf, st1, json, page, rest, c);
      }
    }
  }

  /** Form700_Blocking.transformScheduleResponse keeps the books balanced;
      each schedule category's `received` grows by its item count and its
      store by exactly its rows; `items.total` is set only on page 1; the
      cover, the join table and the reset flags are untouched. */
  lemma SchedulePageSpec(setup: Setup, st: State, json: Value, page: int)
    requires Accounted(st)
    ensures SchedulePage(setup, st, json, page).Ok? ==>
      var st' := SchedulePage(setup, st, json, page).value;
      Accounted(st') && st'.filings == st.filings && st'.wasReset == st.wasReset &&
      st'.data[Cover] == st.data[Cover] && st'.counters[Of(Cover)] == st.counters[Of(Cover)] &&
      st'.counters[Items].created == st.counters[Items].created &&
      (page == 1 ==> Field(json, "totalMatchingCount") == Ok(st'.counters[Items].total)) &&
      (page != 1 ==> st'.counters[Items].total == st.counters[Items].total) &&
      forall c: Category :: c != Cover ==>
        Listed(json, c).Ok? &&
        var items := Listed(json, c).value;
        CategoryRows(PageRowsOf(setup, st.filings)(c), items, []).Ok? &&
        st'.data[c] == st.data[c] + CategoryRows(PageRowsOf(setup, st.filings)(c), items, []).value &&
        st'.counters[Of(c)].received == st.counters[Of(c)].received + |items| &&
        st'.counters[Of(c)].created == st.counters[Of(c)].created
  {
    CategoriesListed();
    ScheduleCategoriesBooks(PageRowsOf(setup, st.filings), st, json, page, SCHEDULES);
    forall c: Category | c != Cover
      ensures SchedulePage(setup, st, json, page).Ok? ==>
        var st' := SchedulePage(setup, st, json, page).value;
        Listed(json, c).Ok? &&
        var items := Listed(json, c).value;
        CategoryRows(PageRowsOf(setup, st.filings)(c), items, []).Ok? &&
        st'.data[c] == st.data[c] + CategoryRows(PageRowsOf(setup, st.filings)(c), items, []).value &&
        st'.counters[Of(c)].received == st.counters[Of(c)].received + |items| &&
        st'.counters[Of(c)].created == st.counters[Of(c)].created
    {
      ScheduleCategoriesRows(PageRowsOf(setup, st.filings), st, json, page, SCHEDULES, c);
    }
  }
}
