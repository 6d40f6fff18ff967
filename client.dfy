/** The Form700_Blocking client object: the state a sync builds up in place
    (join table, row stores, reconciliation counters, reset flags) and the
    methods that update it, each proved to do what the functional model of
    the same step says. */
module Client {
  import opened Values
  import opened Schemas
  import opened Explode
  import opened Flatten
  import opened Ledger
  import opened Transform
  import opened Loader
  import opened SyncFlow

  /** Each row cast with deal_with_dates, in order: the loop that follows
      explodeScheduleA2 and explodeScheduleD. */
  method DealWithEach(dateCols: seq<string>, rows: seq<Row>) returns (r: Result<seq<Row>>)
    ensures r == MapAll(rows, CastRowOf(dateCols))
  {
    var done: seq<Row> := [];
    var i := 0;
    assert rows[0..] == rows;
    PrependNothing(MapAll(rows, CastRowOf(dateCols)), done);
    while i < |rows|
      invariant 0 <= i <= |rows|
      invariant MapAll(rows, CastRowOf(dateCols)) == Prepend(done, MapAll(rows[i..], CastRowOf(dateCols)))
    {
      assert rows[i..][0] == rows[i];
      assert rows[i..][1..] == rows[i + 1..];
      var cast := DealWithDates(dateCols, rows[i]);
      if cast.Err? {
        return Err(cast.halt);
      }
      MapAllStep(rows, i, CastRowOf(dateCols), done);
      done := done + [cast.value];
      i := i + 1;
    }
    assert rows[i..] == [];
    PrependNothing(MapAll(rows[i..], CastRowOf(dateCols)), done);
    return Ok(done);
  }

  class Form700 {
    /** The schemas and their date columns, fixed by `__init__`. */
    const setup: Setup
    /** `self.filings`: the join table of filer records, by filing id. */
    var filings: map<Value, Row>
    /** `self.data`: the rows each category has stored for loading. */
    var data: map<Category, seq<Row>>
    /** `self.sanity_check`: the reconciliation counters. */
    var counters: map<Bucket, Counter>
    /** `self.was_reset`: whether a category's dataset has been written. */
    var wasReset: map<Category, bool>

    /** The object's fields as a value of the functional model. */
    function Snapshot(): State
      reads this
    {
      State(filings, data, counters, wasReset)
    }

    /** The per-category tables __init__ builds: each category's date
        columns, an empty store and a cleared reset flag. */
    static method CategoryTables(schemas: map<Category, Schema>)
      returns (dateColumns: map<Category, seq<string>>, rows: map<Category, seq<Row>>, reset: map<Category, bool>)
      requires forall c: Category :: c in schemas && WellFormed(schemas[c])
      ensures forall c: Category :: c in dateColumns && dateColumns[c] == DateColumns(schemas[c]) && Distinct(dateColumns[c])
      ensures forall c: Category :: c in rows && rows[c] == [] && c in reset && !reset[c]
    {
      dateColumns, rows, reset := map[], map[], map[];
      var i := 0;
      while i < |CATEGORIES|
        invariant 0 <= i <= |CATEGORIES|
        invariant forall j :: 0 <= j < i ==> CATEGORIES[j] in dateColumns && dateColumns[CATEGORIES[j]] == DateColumns(schemas[CATEGORIES[j]])
        invariant forall j :: 0 <= j < i ==> CATEGORIES[j] in rows && rows[CATEGORIES[j]] == []
        invariant forall j :: 0 <= j < i ==> CATEGORIES[j] in reset && !reset[CATEGORIES[j]]
      {
        var c := CATEGORIES[i];
        var cols := CollectDateColumns(schemas[c]);
        dateColumns := dateColumns[c := cols];
        rows := rows[c := []];
        reset := reset[c := false];
        i := i + 1;
      }
      CategoriesListed();
      forall c: Category
        ensures c in dateColumns && dateColumns[c] == DateColumns(schemas[c]) && Distinct(dateColumns[c])
        ensures c in rows && rows[c] == [] && c in reset && !reset[c]
      {
        assert c in CATEGORIES;
        var j :| 0 <= j < |CATEGORIES| && CATEGORIES[j] == c;
        DateColumnsSpec(schemas[c]);
      }
    }

    /** `__init__`: each category's date columns are collected from its
        schema, its row store is emptied and its reset flag cleared; every
        counter starts at zero and the join table is empty. */
    constructor(schemas: map<Category, Schema>)
      requires forall c: Category :: c in schemas && WellFormed(schemas[c])
      ensures setup.schemas == schemas
      ensures forall c: Category :: c in setup.dateColumns && setup.dateColumns[c] == DateColumns(schemas[c])
      ensures Ready(setup)
      ensures Snapshot() == Initial()
    {
      var dateColumns, rows, reset := CategoryTables(schemas);
      InitialFrom(rows, reset);
      setup := Setup(schemas, dateColumns);
      filings := map[];
      data := rows;
      // the sanity_check comprehension: zero counters for every category and `items`
      counters := Initial().counters;
      wasReset := reset;
    }

    /** saveResponseTemp: the rows are appended to the category's store and
        nothing else changes. */
    method SaveResponseTemp(c: Category, rows: seq<Row>)
      requires c in data
      modifies this
      ensures data == old(data)[c := old(data)[c] + rows]
      ensures filings == old(filings) && counters == old(counters) && wasReset == old(wasReset)
    {
      data := data[c := data[c] + rows];
    }

    /** `received += n` for the category and, for a schedule, for `items`. */
    method AddReceived(c: Category, n: int)
      requires Complete(Snapshot())
      modifies this
      ensures Snapshot() == ReceivedBy(old(Snapshot()), c, n)
    {
      var k := counters[Of(c)];
      counters := counters[Of(c) := k.(received := k.received + n)];
      if c != Cover {
        var items := counters[Items];
        counters := counters[Items := items.(received := items.received + n)];
      }
    }

    /** `send += len(data)` for the category and, for a schedule, for
        `items`, then saveResponseTemp. */
    method SendRows(c: Category, rows: seq<Row>)
      requires Complete(Snapshot())
      modifies this
      ensures Snapshot() == SentBy(old(Snapshot()), c, rows)
    {
      var k := counters[Of(c)];
      counters := counters[Of(c) := k.(send := k.send + |rows|)];
      if c != Cover {
        var items := counters[Items];
        counters := counters[Items := items.(send := items.send + |rows|)];
      }
      SaveResponseTemp(c, rows);
    }

    /** The loop over a cover page's filings: each filing's filer record
        goes into the join table under its filingId and its projected row is
        collected. It halts exactly when the model's loop does, and otherwise
        leaves the join table and returns the rows the model gives; nothing
        else changes. */
    method JoinFilings(fs: seq<Value>) returns (r: Result<seq<Row>>)
      requires Ready(setup)
      modifies this
      ensures data == old(data) && counters == old(counters) && wasReset == old(wasReset)
      ensures var j := CoverRows(CoverRowOf(setup.dateColumns[Cover], setup.schemas[Cover]), fs, Joined(old(filings), []));
        r.Ok? == j.Ok? && (r.Err? ==> r.halt == j.halt) &&
        (r.Ok? ==> r.value == j.value.rows && filings == j.value.filings)
    {
      var rowOf := CoverRowOf(setup.dateColumns[Cover], setup.schemas[Cover]);
      var rows: seq<Row> := [];
      var i := 0;
      assert fs[0..] == fs;
      while i < |fs|
        invariant 0 <= i <= |fs|
        invariant data == old(data) && counters == old(counters) && wasReset == old(wasReset)
        invariant CoverRows(rowOf, fs, Joined(old(filings), [])) == CoverRows(rowOf, fs[i..], Joined(filings, rows))
      {
        assert fs[i..][0] == fs[i];
        assert fs[i..][1..] == fs[i + 1..];
        var out := CoverRow(setup.dateColumns[Cover], setup.schemas[Cover], fs[i]);
        if out.Err? {
          return Err(out.halt);
        }
        filings := filings[out.value.key := out.value.filer];
        rows := rows + [out.value.row];
        i := i + 1;
      }
      assert fs[i..] == [];
      return Ok(rows);
    }

    /** transformCoverResponse: the page's filings, cast, flattened, joined
        into the filing table and projected, then counted and stored. It
        halts exactly when the model's cover page does, and otherwise leaves
        the state the model gives. */
    method TransformCoverResponse(json: Value, page: int) returns (s: Status)
      requires Ready(setup) && Complete(Snapshot())
      modifies this
      ensures s == StatusOf(CoverPage(setup, old(Snapshot()), json, page))
      ensures s.Success? ==> Snapshot() == CoverPage(setup, old(Snapshot()), json, page).value
    {
      if page == 1 {
        var total := Field(json, "totalMatchingCount");
        if total.Err? {
          return Failure(total.halt);
        }
        counters := counters[Of(Cover) := counters[Of(Cover)].(total := total.value)];
      }
      var listed := Field(json, "filings");
      if listed.Err? {
        return Failure(listed.halt);
      }
      var items := Iterate(listed.value);
      if items.Err? {
        return Failure(items.halt);
      }
      var rows := JoinFilings(items.value);
      if rows.Err? {
        return Failure(rows.halt);
      }
      assert CoverPage(setup, old(Snapshot()), json, page) == Ok(Tallied(Snapshot(), Cover, |rows.value|, rows.value));
      TalliedInTwoSteps(Snapshot(), Cover, |rows.value|, rows.value);
      AddReceived(Cover, |rows.value|);
      SendRows(Cover, rows.value);
      return Success;
    }

    /** The body of the loop over a category's items: the join with the
        item's filing record, the flattening of income sources for schedules
        A2, B and C, the category's reshaping and deal_with_dates on every
        resulting row. */
    method TransformItem(c: Category, item: Value) returns (r: Result<seq<Row>>)
      requires Ready(setup)
      ensures r == ItemRows(c, setup.schemas[c], setup.dateColumns[c], filings, item)
    {
      var joined := JoinFiling(filings, item);
      if joined.Err? {
        return Err(joined.halt);
      }
      var row := joined.value;
      if HasIncomeSources(c) {
        var sources := Lookup(row, "incomeSources");
        if sources.Err? {
          return Err(sources.halt);
        }
        var flat := FlattenIncomeSources(sources.value);
        if flat.Err? {
          return Err(flat.halt);
        }
        row := row["incomeSources" := VStr(flat.value)];
      }
      assert FlattenSources(c, joined.value) == Ok(row);
      r := ShapeRows(c, row);
    }

    /** The reshaping of one joined item by its category (explodeScheduleA2,
        B or D, pickKeys for the rest), then deal_with_dates on each row. */
    method ShapeRows(c: Category, row: Row) returns (r: Result<seq<Row>>)
      requires Ready(setup)
      ensures r == (var shaped :- Shaped(c, setup.schemas[c], row); MapAll(shaped, CastRowOf(setup.dateColumns[c])))
    {
      var schema := setup.schemas[c];
      var dateCols := setup.dateColumns[c];
      if c == ScheduleA2 {
        var exploded := ExplodeScheduleA2(schema, row);
        if exploded.Err? {
          return Err(exploded.halt);
        }
        r := DealWithEach(dateCols, exploded.value);
      } else if c == ScheduleB {
        var exploded := ExplodeScheduleB(schema, row);
        if exploded.Err? {
          return Err(exploded.halt);
        }
        var cast := DealWithDates(dateCols, exploded.value);
        MapAllOne(exploded.value, CastRowOf(dateCols));
        if cast.Err? {
          return Err(cast.halt);
        }
        r := Ok([cast.value]);
      } else if c == ScheduleD {
        var exploded := ExplodeScheduleD(schema, row);
        if exploded.Err? {
          return Err(exploded.halt);
        }
        r := DealWithEach(dateCols, exploded.value);
      } else {
        var picked := PickKeys(schema, row);
        if picked.Err? {
          return Err(picked.halt);
        }
        var cast := DealWithDates(dateCols, picked.value);
        MapAllOne(picked.value, CastRowOf(dateCols));
        if cast.Err? {
          return Err(cast.halt);
        }
        r := Ok([cast.value]);
      }
    }

    /** The loop over a category's items on one page: each item's rows are
        appended to the page's `data`, in order; the first item that halts
        halts the loop. */
    method TransformItems(c: Category, items: seq<Value>) returns (r: Result<seq<Row>>)
      requires Ready(setup)
      ensures r == CategoryRows(ItemRowsOf(c, setup.schemas[c], setup.dateColumns[c], filings), items, [])
    {
      var rowsOf := ItemRowsOf(c, setup.schemas[c], setup.dateColumns[c], filings);
      var rows: seq<Row> := [];
      var j := 0;
      assert items[0..] == items;
      while j < |items|
        invariant 0 <= j <= |items|
        invariant CategoryRows(rowsOf, items, []) == CategoryRows(rowsOf, items[j..], rows)
      {
        assert items[j..][0] == items[j];
        assert items[j..][1..] == items[j + 1..];
        var more := TransformItem(c, items[j]);
        if more.Err? {
          return Err(more.halt);
        }
        rows := rows + more.value;
        j := j + 1;
      }
      assert items[j..] == [];
      return Ok(rows);
    }

    /** On page 1, `items.total` is set from the page's `totalMatchingCount`. */
    method SetItemsTotal(json: Value, page: int) returns (s: Status)
      requires Complete(Snapshot())
      modifies this
      ensures filings == old(filings)
      ensures s == StatusOf(ItemsTotal(old(Snapshot()), json, page))
      ensures s.Success? ==> Snapshot() == ItemsTotal(old(Snapshot()), json, page).value
    {
      if page == 1 {
        var total := Field(json, "totalMatchingCount");
        if total.Err? {
          return Failure(total.halt);
        }
        counters := counters[Items := counters[Items].(total := total.value)];
      }
      return Success;
    }

    /** The items of a category, when the page lists any: the received
        counts, the item loop, the sent counts and saveResponseTemp. */
    method StoreItems(c: Category, items: seq<Value>) returns (s: Status)
      requires Ready(setup) && Complete(Snapshot())
      modifies this
      ensures filings == old(filings)
      ensures s == StatusOf(CategoryItems(ItemRowsOf(c, setup.schemas[c], setup.dateColumns[c], old(filings)), old(Snapshot()), c, items))
      ensures s.Success? ==>
        Snapshot() == CategoryItems(ItemRowsOf(c, setup.schemas[c], setup.dateColumns[c], old(filings)), old(Snapshot()), c, items).value
    {
      if |items| > 0 {
        ghost var st0 := Snapshot();
        AddReceived(c, |items|);
        var rows := TransformItems(c, items);
        if rows.Err? {
          return Failure(rows.halt);
        }
        TalliedInTwoSteps(st0, c, |items|, rows.value);
        SendRows(c, rows.value);
      }
      return Success;
    }

    /** One turn of transformScheduleResponse's loop over the schedule
        categories: `items.total` on page 1, then, when the page lists items
        of the category, the received counts, the item loop, the sent counts
        and saveResponseTemp. */
    method TransformCategory(json: Value, page: int, c: Category) returns (s: Status)
      requires Ready(setup) && Complete(Snapshot())
      modifies this
      ensures filings == old(filings)
      ensures s == StatusOf(ScheduleCategory(PageRowsOf(setup, old(filings)), old(Snapshot()), json, page, c))
      ensures s.Success? ==> Snapshot() == ScheduleCategory(PageRowsOf(setup, old(filings)), old(Snapshot()), json, page, c).value
    {
      var total := SetItemsTotal(json, page);
      if total.Failure? {
        return total;
      }
      var listed := Field(json, Name(c));
      if listed.Err? {
        return Failure(listed.halt);
      }
      var items := Iterate(listed.value);
      if items.Err? {
        return Failure(items.halt);
      }
      assert Listed(json, c) == items;
      assert PageRowsOf(setup, filings)(c) == ItemRowsOf(c, setup.schemas[c], setup.dateColumns[c], filings);
      s := StoreItems(c, items.value);
    }

    /** transformScheduleResponse: the categories in order, the cover
        skipped, each against the join table as the page found it. It halts
        exactly when the model's schedule page does, and otherwise leaves the
        state the model gives. */
    method TransformScheduleResponse(json: Value, page: int) returns (s: Status)
      requires Ready(setup) && Complete(Snapshot())
      modifies this
      ensures s == StatusOf(SchedulePage(setup, old(Snapshot()), json, page))
      ensures s.Success? ==> Snapshot() == SchedulePage(setup, old(Snapshot()), json, page).value
    {
      ghost var rowsOf := PageRowsOf(setup, filings);
      ghost var page0 := ScheduleCategories(rowsOf, Snapshot(), json, page, SCHEDULES);
      // every category but the cover, in order
      var k := 0;
      assert SCHEDULES[0..] == SCHEDULES;
      while k < |SCHEDULES|
        invariant 0 <= k <= |SCHEDULES|
        invariant Complete(Snapshot()) && filings == old(filings)
        invariant page0 == ScheduleCategories(rowsOf, Snapshot(), json, page, SCHEDULES[k..])
      {
        var c := SCHEDULES[k];
        ghost var before := Snapshot();
        assert SCHEDULES[k..][0] == c && SCHEDULES[k..][1..] == SCHEDULES[k + 1..];
        ScheduleCategoriesStep(rowsOf, before, json, page, SCHEDULES[k..]);
        s := TransformCategory(json, page, c);
        if s.Failure? {
          return s;
        }
        k := k + 1;
      }
      return Success;
    }

    /** The catalog's count of rows created, added to the category's `created` and, for a
        schedule, for `items`. */
    method CountCreated(c: Category, n: int)
      requires Of(c) in counters && Items in counters
      modifies this
      ensures counters == CreatedCounters(old(counters), c, n)
      ensures filings == old(filings) && data == old(data) && wasReset == old(wasReset)
    {
      var k := counters[Of(c)];
      counters := counters[Of(c) := k.(created := k.created + n)];
      if c != Cover {
        var items := counters[Items];
        counters := counters[Items := items.(created := items.created + n)];
      }
    }

    /** One turn of loadData's loop: sendToDataSF writes the chunk,
        replacing the dataset iff the category was not reset; the flag is
        then set, the run halts if the client raised or the catalog reports
        errors, and otherwise the rows created are counted. */
    method LoadChunk(catalog: Catalog, c: Category, i: nat, chunk: seq<Row>) returns (s: Status, w: Write)
      requires c in wasReset && Of(c) in counters && Items in counters
      modifies this
      ensures w == Write(c, i, ModeFor(old(wasReset)[c]), chunk)
      ensures s.Success? <==> Accepted(catalog(w))
      ensures catalog(w).Raised? ==> s == Failure(CatalogRaised)
      ensures catalog(w).Written? && catalog(w).errors > 0 ==> s == Failure(CatalogErrors(catalog(w).errors))
      ensures s.Success? ==>
        Snapshot() == old(Snapshot()).(wasReset := old(wasReset)[c := true],
                                       counters := CreatedCounters(old(counters), c, CreatedOne(catalog, w)))
    {
      w := Write(c, i, ModeFor(wasReset[c]), chunk);
      var reply := catalog(w);
      if reply.Raised? {
        return Failure(CatalogRaised), w;
      }
      wasReset := wasReset[c := true];
      if reply.errors > 0 {
        return Failure(CatalogErrors(reply.errors)), w;
      }
      CountCreated(c, reply.rowsCreated);
      return Success, w;
    }

    /** loadData: the category's store cut into chunks of at most 1000
        rows, loaded one after another. It halts exactly when the model's
        load does, and otherwise leaves the state and issues the writes the
        model gives. */
    method LoadData(catalog: Catalog, c: Category) returns (s: Status, writes: seq<Write>)
      requires Complete(Snapshot())
      modifies this
      ensures Loader.LoadData(catalog, old(Snapshot()), c) ==
        if s.Success? then Ok(Loaded(Snapshot(), writes)) else Err(s.halt)
    {
      ghost var st0 := Snapshot();
      var chunks := Chunks(data[c]);
      writes := [];
      var i := 0;
      LoadingStart(catalog, st0, c);
      while i < |chunks|
        invariant chunks == Chunks(st0.data[c])
        invariant Loading(catalog, st0, c, i, writes, Snapshot())
      {
        ghost var before := Snapshot();
        var w;
        s, w := LoadChunk(catalog, c, i, chunks[i]);
        if s.Failure? {
          LoadingStop(catalog, st0, c, i, writes, before, w);
          return s, writes;
        }
        LoadingStep(catalog, st0, c, i, writes, before, w);
        writes := writes + [w];
        i := i + 1;
      }
      LoadingDone(catalog, st0, c, writes, Snapshot());
      return Success, writes;
    }

    /** The endpoint's transform of one page: transformCoverResponse or
        transformScheduleResponse. */
    method TransformPage(e: Endpoint, json: Value, page: int) returns (s: Status)
      requires Ready(setup) && Complete(Snapshot())
      modifies this
      ensures TransformFor(setup, e)(old(Snapshot()), json, page) ==
        if s.Success? then Ok(Snapshot()) else Err(s.halt)
    {
      if e == CoverApi {
        s := TransformCoverResponse(json, page);
      } else {
        s := TransformScheduleResponse(json, page);
      }
    }

    /** One page of an endpoint inside sync: extractData, then the
        endpoint's transform. */
    method FetchPage(e: Endpoint, netfile: Netfile, page: int, requests: seq<Request>) returns (s: Status, requests': seq<Request>)
      requires Ready(setup) && Complete(Snapshot())
      modifies this
      ensures PageStep(TransformFor(setup, e), e, netfile, Progress(old(Snapshot()), requests), page) ==
        if s.Success? then Ok(Progress(Snapshot(), requests')) else Err(s.halt)
    {
      var req := Request(e, page);
      requests' := requests + [req];
      var json := Extract(netfile, req);
      if json.Err? {
        return Failure(json.halt), requests';
      }
      s := TransformPage(e, json.value, page);
    }

    /** A page loop of sync, from page `lo` while the page is below `hi`:
        the cover loop runs up to and including the announced page count (hi is the
        total plus one), the schedule loop while `current_page <
        total_pages`. It also gives the page it stopped on. */
    method PageLoop(e: Endpoint, netfile: Netfile, lo: int, hi: int, requests: seq<Request>) returns (s: Status, requests': seq<Request>, last: int)
      requires Ready(setup) && Complete(Snapshot())
      modifies this
      ensures PagesFrom(TransformFor(setup, e), e, netfile, Progress(old(Snapshot()), requests), Range(lo, hi)) ==
        if s.Success? then Ok(Progress(Snapshot(), requests')) else Err(s.halt)
      ensures s.Success? ==> Complete(Snapshot()) && last == Max(lo, hi)
    {
      ghost var transform := TransformFor(setup, e);
      ghost var p0 := Progress(Snapshot(), requests);
      var page := lo;
      requests' := requests;
      PagingStart(transform, e, netfile, p0, lo, hi);
      while page < hi
        invariant Paging(transform, e, netfile, p0, lo, hi, page, Progress(Snapshot(), requests'))
        decreases hi - page
      {
        ghost var p := Progress(Snapshot(), requests');
        s, requests' := FetchPage(e, netfile, page, requests');
        if s.Failure? {
          PagingStop(transform, e, netfile, p0, lo, hi, page, p, s.halt);
          return s, requests', page;
        }
        PagingStep(transform, e, netfile, p0, lo, hi, page, p, Progress(Snapshot(), requests'));
        page := page + 1;
      }
      PagingDone(transform, e, netfile, p0, lo, hi, page, Progress(Snapshot(), requests'));
      return Success, requests', page;
    }
  
    /** The cover extraction of sync: page 1, its counts, then pages 2 to
        `totalMatchingPages`. */
    method CoverPages(netfile: Netfile) returns (s: Status, requests: seq<Request>)
      requires Ready(setup) && Complete(Snapshot())
      modifies this
      ensures ExtractCovers(TransformFor(setup, CoverApi), netfile, Progress(old(Snapshot()), [])) ==
        if s.Success? then Ok(Progress(Snapshot(), requests)) else Err(s.halt)
    {
      ghost var transform := TransformFor(setup, CoverApi);
      ghost var p0 := Progress(Snapshot(), []);
      var req := Request(CoverApi, 1);
      requests := [req];
      var json := Extract(netfile, req);
      if json.Err? {
        return Failure(json.halt), requests;
      }
      var counts := LogPageCounts(json.value);
      if counts.Err? {
        return Failure(counts.halt), requests;
      }
      s := TransformPage(CoverApi, json.value, 1);
      if s.Failure? {
        assert transform(p0.st, json.value, 1) == Err(s.halt);
        return s, requests;
      }
      assert transform(p0.st, json.value, 1) == Ok(Snapshot());
      var t := PageLimit(json.value);
      if t.Err? {
        return Failure(t.halt), requests;
      }
      assert p0.requests + [req] == requests;
      ExtractCoversFrom(transform, netfile, p0, json.value, Snapshot(), t.value);
      var last;
      s, requests, last := PageLoop(CoverApi, netfile, 2, t.value + 1, requests);
    }

    /** The schedule extraction of sync: page 1, its counts, the loop
        `while current_page < total_pages` from page 2, then one more request
        at the page the loop stopped on. */
    method SchedulePages(netfile: Netfile, requests: seq<Request>) returns (s: Status, requests': seq<Request>)
      requires Ready(setup) && Complete(Snapshot())
      modifies this
      ensures ExtractSchedules(TransformFor(setup, ScheduleApi), netfile, Progress(old(Snapshot()), requests)) ==
        if s.Success? then Ok(Progress(Snapshot(), requests')) else Err(s.halt)
    {
      ghost var transform := TransformFor(setup, ScheduleApi);
      ghost var p0 := Progress(Snapshot(), requests);
      var req := Request(ScheduleApi, 1);
      requests' := requests + [req];
      var json := Extract(netfile, req);
      if json.Err? {
        return Failure(json.halt), requests';
      }
      var counts := LogPageCounts(json.value);
      if counts.Err? {
        return Failure(counts.halt), requests';
      }
      s := TransformPage(ScheduleApi, json.value, 1);
      if s.Failure? {
        assert transform(p0.st, json.value, 1) == Err(s.halt);
        return s, requests';
      }
      assert transform(p0.st, json.value, 1) == Ok(Snapshot());
      var t := PageLimit(json.value);
      if t.Err? {
        return Failure(t.halt), requests';
      }
      ExtractSchedulesFrom(transform, netfile, p0, json.value, Snapshot(), t.value);
      ghost var p1 := Progress(Snapshot(), requests');
      ScheduleTailFrom(transform, netfile, p1, t.value);
      var current;
      s, requests', current := PageLoop(ScheduleApi, netfile, 2, t.value, requests');
      if s.Failure? {
        return s, requests';
      }
      s, requests' := FetchPage(ScheduleApi, netfile, current, requests');
    }

    /** The schedule load of sync: loadData for each schedule category in
        turn; the per-category loadConfirm is computed and not looked at. */
    method LoadSchedules(catalog: Catalog, writes: seq<Write>) returns (s: Status, writes': seq<Write>)
      requires Complete(Snapshot())
      modifies this
      ensures SyncFlow.LoadSchedules(catalog, old(Snapshot()), SCHEDULES, writes) ==
        if s.Success? then Ok(Loaded(Snapshot(), writes')) else Err(s.halt)
    {
      ghost var st0 := Snapshot();
      writes' := writes;
      var k := 0;
      assert SCHEDULES[0..] == SCHEDULES;
      while k < |SCHEDULES|
        invariant 0 <= k <= |SCHEDULES|
        invariant Complete(Snapshot())
        invariant SyncFlow.LoadSchedules(catalog, st0, SCHEDULES, writes) ==
          SyncFlow.LoadSchedules(catalog, Snapshot(), SCHEDULES[k..], writes')
      {
        var c := SCHEDULES[k];
        assert SCHEDULES[k..][0] == c && SCHEDULES[k..][1..] == SCHEDULES[k + 1..];
        var more;
        s, more := LoadData(catalog, c);
        if s.Failure? {
          return s, writes';
        }
        var _ := LoadConfirm(Snapshot(), Of(c));
        writes' := writes' + more;
        k := k + 1;
      }
      return Success, writes';
    }

    /** The cover half of sync: extract the cover pages, check their count,
        load the covers, check the load. It halts exactly when the model of
        that half does, and otherwise gives its state, requests and writes. */
    method CoverHalf(netfile: Netfile, catalog: Catalog) returns (s: Status, requests: seq<Request>, writes: seq<Write>)
      requires Ready(setup) && Complete(Snapshot())
      modifies this
      ensures CoverPhase(TransformFor(setup, CoverApi), netfile, catalog, old(Snapshot())) ==
        if s.Success? then Ok(Run(Snapshot(), requests, writes)) else Err(s.halt)
    {
      writes := [];
      s, requests := CoverPages(netfile);
      if s.Failure? {
        return s, requests, writes;
      }
      if !ExtractConfirmCover(Snapshot()) {
        return Failure(CountMismatch(CoverExtract)), requests, writes;
      }
      s, writes := LoadData(catalog, Cover);
      if s.Failure? {
        return s, requests, writes;
      }
      if !LoadConfirm(Snapshot(), Of(Cover)) {
        return Failure(CountMismatch(CoverLoad)), requests, writes;
      }
    }

    /** The schedule half of sync, after the cover half left `requests` and
        `writes`: extract the schedule pages, check the aggregate count, load
        every schedule category, check the aggregate load. */
    method ScheduleHalf(netfile: Netfile, catalog: Catalog, requests: seq<Request>, writes: seq<Write>)
      returns (s: Status, requests': seq<Request>, writes': seq<Write>)
      requires Ready(setup) && Complete(Snapshot())
      modifies this
      ensures SchedulePhase(TransformFor(setup, ScheduleApi), netfile, catalog, Run(old(Snapshot()), requests, writes)) ==
        if s.Success? then Ok(Run(Snapshot(), requests', writes')) else Err(s.halt)
    {
      writes' := writes;
      s, requests' := SchedulePages(netfile, requests);
      if s.Failure? {
        return s, requests', writes';
      }
      if !ExtractConfirmSchedule(Snapshot()) {
        return Failure(CountMismatch(ScheduleExtract)), requests', writes';
      }
      s, writes' := LoadSchedules(catalog, writes);
      if s.Failure? {
        return s, requests', writes';
      }
      if !LoadConfirm(Snapshot(), Items) {
        return Failure(CountMismatch(ScheduleLoad)), requests', writes';
      }
    }

    /** sync: authenticate, then the cover half, then the schedule half. Run
        on the object `__init__` built, it halts exactly when the model of
        the run does, and otherwise leaves the state, the requests and the
        writes the model gives. */
    method Sync(authStatus: int, netfile: Netfile, catalog: Catalog)
      returns (s: Status, requests: seq<Request>, writes: seq<Write>)
      requires Ready(setup) && Snapshot() == Initial()
      modifies this
      ensures SyncRun(setup, authStatus, netfile, catalog) ==
        if s.Success? then Ok(Run(Snapshot(), requests, writes)) else Err(s.halt)
    {
      requests, writes := [], [];
      SyncRunPhases(setup, authStatus, netfile, catalog);
      var auth := Authenticated(authStatus);
      if auth.Err? {
        return Failure(auth.halt), requests, writes;
      }
      s, requests, writes := CoverHalf(netfile, catalog);
      if s.Failure? {
        return s, requests, writes;
      }
      s, requests, writes := ScheduleHalf(netfile, catalog, requests, writes);
    }
  }
}
