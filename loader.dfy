/** loadData and sendToDataSF: a category's stored rows cut into chunks of at
    most 1000 and written to the catalog one after another, the first write
    replacing the dataset unless the category was already reset, every later
    one upserting. The catalog is an input: its reply to each write. */
module Loader {
  import opened Values
  import opened Schemas
  import opened Ledger

  /** Rows per catalog write. */
  const CHUNK_SIZE: nat := 1000

  /** The rows cut into consecutive slices of CHUNK_SIZE rows, the last one holding the rest. */
  function Chunks<T>(rows: seq<T>): (chunks: seq<seq<T>>)
    decreases |rows|
  {
    if rows == [] then []
    else if |rows| <= CHUNK_SIZE then [rows]
    else [rows[..CHUNK_SIZE]] + Chunks(rows[CHUNK_SIZE..])
  }

  function Min(a: int, b: int): int { if a <= b then a else b }

  /** There are ceil(n / 1000) chunks; chunk i is the slice starting at row
      1000 * i, 1000 rows long except possibly the last, which holds the rest;
      so every chunk is non-empty and an empty store has none. */
  lemma {:induction false} ChunksShape<T>(rows: seq<T>)
    ensures |Chunks(rows)| == (|rows| + CHUNK_SIZE - 1) / CHUNK_SIZE
    ensures forall i :: 0 <= i < |Chunks(rows)| ==>
      CHUNK_SIZE * i < |rows| &&
      Chunks(rows)[i] == rows[CHUNK_SIZE * i .. Min(CHUNK_SIZE * (i + 1), |rows|)]
    decreases |rows|
  {
    if |rows| > CHUNK_SIZE {
      var rest := rows[CHUNK_SIZE..];
      ChunksShape(rest);
      var cs := Chunks(rows);
      assert cs == [rows[..CHUNK_SIZE]] + Chunks(rest);
      forall i | 0 <= i < |cs|
        ensures CHUNK_SIZE * i < |rows|
        ensures cs[i] == rows[CHUNK_SIZE * i .. Min(CHUNK_SIZE * (i + 1), |rows|)]
      {
        if i > 0 {
          assert cs[i] == Chunks(rest)[i - 1];
          assert CHUNK_SIZE * (i - 1) < |rest|;
          assert cs[i] == rest[CHUNK_SIZE * (i - 1) .. Min(CHUNK_SIZE * i, |rest|)];
          assert CHUNK_SIZE * i == CHUNK_SIZE * (i - 1) + CHUNK_SIZE;
          assert Min(CHUNK_SIZE * (i + 1), |rows|) == Min(CHUNK_SIZE * i, |rest|) + CHUNK_SIZE;
        }
      }
    }
  }

  /** The chunks put back together are the store, and none exceeds 1000 rows. */
  lemma {:induction false} ChunksConcat<T>(rows: seq<T>)
    ensures Concat(Chunks(rows)) == rows
    ensures forall i :: 0 <= i < |Chunks(rows)| ==> 0 < |Chunks(rows)[i]| <= CHUNK_SIZE
    decreases |rows|
  {
    if rows == [] {
    } else if |rows| <= CHUNK_SIZE {
      assert Concat(Chunks(rows)) == rows + Concat<T>([]);
      assert rows + [] == rows;
    } else {
      var rest := rows[CHUNK_SIZE..];
      ChunksConcat(rest);
      var cs := Chunks(rows);
      assert cs == [rows[..CHUNK_SIZE]] + Chunks(rest);
      assert cs[1..] == Chunks(rest);
      assert rows[..CHUNK_SIZE] + rest == rows;
      forall i | 0 <= i < |cs| ensures 0 < |cs[i]| <= CHUNK_SIZE {
        if i > 0 {
          assert cs[i] == Chunks(rest)[i - 1];
        }
      }
    }
  }

  /** How a chunk is written: replace the dataset, or add and update rows. */
  datatype Mode = Replace | Upsert

  /** sendToDataSF: replace exactly when the category has not been reset yet. */
  function ModeFor(wasReset: bool): (m: Mode)
    ensures m == Replace <==> !wasReset
  {
    if !wasReset then Replace else Upsert
  }

  /** One request to the catalog: which category, which chunk, how, what. */
  datatype Write = Write(category: Category, chunk: nat, mode: Mode, rows: seq<Row>)

  /** The catalog's answer: its `Errors` and `Rows Created` counts, or an
      exception from the client. */
  datatype Reply = Written(errors: int, rowsCreated: int) | Raised

  /** The catalog as the run sees it: a reply for every write. */
  type Catalog = Write -> Reply

  /** What a load leaves: the state and the writes issued, in order. */
  datatype Loaded = Loaded(st: State, writes: seq<Write>)

  /** Which mode chunk i of a category is written in, given the category's
      reset flag before its first chunk: each write sets the flag. */
  function ModeAt(wasReset: bool, i: nat): Mode
  {
    ModeFor(wasReset || i > 0)
  }

  /** The catalog accepted a write without errors. */
  predicate Accepted(r: Reply) { r.Written? && r.errors <= 0 }

  /** The writes of the loop of loadData from chunk `index` on, with the
      category's reset flag `reset`: each chunk is written in the mode the
      flag gives; the run halts if the client raised or the catalog reports
      errors; the flag is set after every write. */
  function WritesFrom(catalog: Catalog, c: Category, chunks: seq<seq<Row>>, index: nat, reset: bool): (r: Result<seq<Write>>)
    ensures r.Ok? ==> |r.value| == |chunks|
    decreases |chunks|
  {
    if chunks == [] then Ok([])
    else
      var w := Write(c, index, ModeFor(reset), chunks[0]);
      match catalog(w)
      case Raised => Err(CatalogRaised)
      case Written(errors, _) =>
        if errors > 0 then Err(CatalogErrors(errors))
        else
          var rest :- WritesFrom(catalog, c, chunks[1..], index + 1, true);
          Ok([w] + rest)
  }

  /** One accepted write of the loop: it joins the writes so far, and the
      loop goes on from the next chunk with the category reset. */
  lemma WritesFromStep(catalog: Catalog, c: Category, chunks: seq<seq<Row>>, i: nat, reset: bool, done: seq<Write>)
    requires i < |chunks| && Accepted(catalog(Write(c, i, ModeFor(reset), chunks[i])))
    ensures Prepend(done, WritesFrom(catalog, c, chunks[i..], i, reset)) ==
      Prepend(done + [Write(c, i, ModeFor(reset), chunks[i])], WritesFrom(catalog, c, chunks[i + 1..], i + 1, true))
  {
    assert chunks[i..][0] == chunks[i] && chunks[i..][1..] == chunks[i + 1..];
    var w := Write(c, i, ModeFor(reset), chunks[i]);
    var rest := WritesFrom(catalog, c, chunks[i + 1..], i + 1, true);
    if rest.Ok? {
      assert done + ([w] + rest.value) == (done + [w]) + rest.value;
    }
  }

  /** A write the catalog did not accept ends the loop with its halt. */
  lemma WritesFromStop(catalog: Catalog, c: Category, chunks: seq<seq<Row>>, i: nat, reset: bool)
    requires i < |chunks| && !Accepted(catalog(Write(c, i, ModeFor(reset), chunks[i])))
    ensures WritesFrom(catalog, c, chunks[i..], i, reset) ==
      match catalog(Write(c, i, ModeFor(reset), chunks[i]))
      case Raised => Err(CatalogRaised)
      case Written(errors, _) => Err(CatalogErrors(errors))
  {
    assert chunks[i..][0] == chunks[i];
  }

  /** Adding rows the catalog created: to the category and, for a schedule, to `items`. */
  function AddCreated(st: State, c: Category, n: int): (st': State)
    requires Complete(st)
    ensures Complete(st') && st'.data == st.data && st'.filings == st.filings && st'.wasReset == st.wasReset
    ensures st'.counters[Of(c)] == st.counters[Of(c)].(created := st.counters[Of(c)].created + n)
    ensures st'.counters[Items] ==
      if c == Cover then st.counters[Items]
      else st.counters[Items].(created := st.counters[Items].created + n)
    ensures forall x: Category :: x != c ==> st'.counters[Of(x)] == st.counters[Of(x)]
  {
    st.(counters := CreatedCounters(st.counters, c, n))
  }

  /** `created += n` on the counters of the category and, for a schedule, of `items`. */
  function CreatedCounters(counters: map<Bucket, Counter>, c: Category, n: int): map<Bucket, Counter>
    requires Of(c) in counters && Items in counters
  {
    var k := counters[Of(c)];
    var counters' := counters[Of(c) := k.(created := k.created + n)];
    if c == Cover then counters'
    else counters'[Items := counters'[Items].(created := counters'[Items].created + n)]
  }

  /** Counting created rows twice is counting their sum once. */
  lemma CreatedCountersTwice(counters: map<Bucket, Counter>, c: Category, n: int, m: int)
    requires Of(c) in counters && Items in counters
    ensures CreatedCounters(CreatedCounters(counters, c, n), c, m) == CreatedCounters(counters, c, n + m)
  {
  }

  /** The rows the catalog reports created by one write. */
  function CreatedOne(catalog: Catalog, w: Write): int {
    match catalog(w) case Written(_, created) => created case Raised => 0
  }

  /** The rows the catalog reports created for some writes. */
  function CreatedBy(catalog: Catalog, writes: seq<Write>): int
  {
    if writes == [] then 0
    else
      CreatedOne(catalog, writes[0]) + CreatedBy(catalog, writes[1..])
  }

  lemma {:induction false} CreatedByAppend(catalog: Catalog, ws: seq<Write>, w: Write)
    ensures CreatedBy(catalog, ws + [w]) == CreatedBy(catalog, ws) + CreatedOne(catalog, w)
    decreases |ws|
  {
    if ws == [] {
      assert [w][1..] == [];
    } else {
      assert (ws + [w])[1..] == ws[1..] + [w];
      CreatedByAppend(catalog, ws[1..], w);
    }
  }

  /** What the writes leave behind: the category reset if there was any
      write, and the rows the catalog created counted for the category and,
      for a schedule, for `items`. A halted load ends the run, so only the
      state after a finished load is ever read. */
  function AfterWrites(catalog: Catalog, st: State, c: Category, writes: seq<Write>): (st': State)
    requires Complete(st)
    ensures Complete(st')
  {
    st.(wasReset := st.wasReset[c := st.wasReset[c] || writes != []],
        counters := CreatedCounters(st.counters, c, CreatedBy(catalog, writes)))
  }

  /** One more write: the category is reset and its created rows counted. */
  lemma AfterWritesAppend(catalog: Catalog, st: State, c: Category, ws: seq<Write>, w: Write)
    requires Complete(st)
    ensures AfterWrites(catalog, st, c, ws + [w]) ==
      var prev := AfterWrites(catalog, st, c, ws);
      prev.(wasReset := prev.wasReset[c := true], counters := CreatedCounters(prev.counters, c, CreatedOne(catalog, w)))
  {
    CreatedByAppend(catalog, ws, w);
    CreatedCountersTwice(st.counters, c, CreatedBy(catalog, ws), CreatedOne(catalog, w));
    var prev := AfterWrites(catalog, st, c, ws);
    assert prev.wasReset[c := true] == st.wasReset[c := true];
  }

  /** Partway through loadData's loop, after chunk i - 1: the writes so far
      are those the model starts with, the category is reset once anything
      was written and its created rows are counted; the stores and the join
      table are untouched. */
  ghost predicate Loading(catalog: Catalog, st0: State, c: Category, i: nat, writes: seq<Write>, st: State)
    requires Complete(st0)
  {
    var chunks := Chunks(st0.data[c]);
    i <= |chunks| && |writes| == i &&
    st == AfterWrites(catalog, st0, c, writes) &&
    WritesFrom(catalog, c, chunks, 0, st0.wasReset[c]) ==
      Prepend(writes, WritesFrom(catalog, c, chunks[i..], i, st0.wasReset[c] || i > 0))
  }

  /** A write the catalog accepted moves the loop on by one chunk. */
  lemma LoadingStep(catalog: Catalog, st0: State, c: Category, i: nat, writes: seq<Write>, st: State, w: Write)
    requires Complete(st0) && Loading(catalog, st0, c, i, writes, st) && i < |Chunks(st0.data[c])|
    requires w == Write(c, i, ModeFor(st.wasReset[c]), Chunks(st0.data[c])[i]) && Accepted(catalog(w))
    ensures Loading(catalog, st0, c, i + 1, writes + [w],
      st.(wasReset := st.wasReset[c := true], counters := CreatedCounters(st.counters, c, CreatedOne(catalog, w))))
  {
    WritesFromStep(catalog, c, Chunks(st0.data[c]), i, st0.wasReset[c] || i > 0, writes);
    AfterWritesAppend(catalog, st0, c, writes, w);
  }

  /** A write the catalog did not accept ends the load with its halt. */
  lemma LoadingStop(catalog: Catalog, st0: State, c: Category, i: nat, writes: seq<Write>, st: State, w: Write)
    requires Complete(st0) && Loading(catalog, st0, c, i, writes, st) && i < |Chunks(st0.data[c])|
    requires w == Write(c, i, ModeFor(st.wasReset[c]), Chunks(st0.data[c])[i]) && !Accepted(catalog(w))
    ensures LoadData(catalog, st0, c) ==
      match catalog(w)
      case Raised => Err(CatalogRaised)
      case Written(errors, _) => Err(CatalogErrors(errors))
  {
    WritesFromStop(catalog, c, Chunks(st0.data[c]), i, st0.wasReset[c] || i > 0);
  }

  /** The loop past its last chunk has done what the model says. */
  lemma LoadingDone(catalog: Catalog, st0: State, c: Category, writes: seq<Write>, st: State)
    requires Complete(st0) && Loading(catalog, st0, c, |Chunks(st0.data[c])|, writes, st)
    ensures LoadData(catalog, st0, c) == Ok(Loaded(st, writes))
  {
    var chunks := Chunks(st0.data[c]);
    assert chunks[|chunks|..] == [];
    PrependNothing(WritesFrom(catalog, c, chunks[|chunks|..], |chunks|, st0.wasReset[c] || |chunks| > 0), writes);
  }

  /** Before the first chunk. */
  lemma LoadingStart(catalog: Catalog, st0: State, c: Category)
    requires Complete(st0)
    ensures Loading(catalog, st0, c, 0, [], st0)
  {
    var chunks := Chunks(st0.data[c]);
    assert chunks[0..] == chunks;
    PrependNothing(WritesFrom(catalog, c, chunks, 0, st0.wasReset[c]), []);
    assert st0.wasReset[c := st0.wasReset[c]] == st0.wasReset;
    assert CreatedCounters(st0.counters, c, 0) == st0.counters;
  }

  /** Form700_Blocking.loadData as a function of the state. */
  function LoadData(catalog: Catalog, st: State, c: Category): Result<Loaded>
    requires Complete(st)
  {
    var writes :- WritesFrom(catalog, c, Chunks(st.data[c]), 0, st.wasReset[c]);
    Ok(Loaded(AfterWrites(catalog, st, c, writes), writes))
  }

  /** The writes from chunk `index` on: one per chunk, in order, numbered
      from `index`, holding the chunk, replacing only if it is the first and
      the category was not reset; there are writes for every chunk exactly
      when the catalog accepted each of them. */
  lemma {:induction false} WritesFromSpec(catalog: Catalog, c: Category, chunks: seq<seq<Row>>, index: nat, reset: bool)
    ensures WritesFrom(catalog, c, chunks, index, reset).Ok? <==>
      forall i :: 0 <= i < |chunks| ==> Accepted(catalog(Write(c, index + i, ModeAt(reset, i), chunks[i])))
    ensures WritesFrom(catalog, c, chunks, index, reset).Ok? ==>
      forall i :: 0 <= i < |chunks| ==>
        WritesFrom(catalog, c, chunks, index, reset).value[i] == Write(c, index + i, ModeAt(reset, i), chunks[i])
    decreases |chunks|
  {
    if chunks != [] {
      var w := Write(c, index, ModeFor(reset), chunks[0]);
      assert w == Write(c, index + 0, ModeAt(reset, 0), chunks[0]);
      WritesFromSpec(catalog, c, chunks[1..], index + 1, true);
      assert forall i :: 0 <= i < |chunks[1..]| ==>
        Write(c, index + 1 + i, ModeAt(true, i), chunks[1..][i]) == Write(c, index + (i + 1), ModeAt(reset, i + 1), chunks[i + 1]);
      if WritesFrom(catalog, c, chunks, index, reset).Ok? {
        var ws := WritesFrom(catalog, c, chunks, index, reset).value;
        var rest := WritesFrom(catalog, c, chunks[1..], index + 1, true).value;
        assert ws == [w] + rest;
        forall i | 0 <= i < |chunks| ensures ws[i] == Write(c, index + i, ModeAt(reset, i), chunks[i]) {
          if i > 0 {
            assert ws[i] == rest[i - 1];
          }
        }
      } else if Accepted(catalog(w)) {
        assert !WritesFrom(catalog, c, chunks[1..], index + 1, true).Ok?;
      }
    }
  }

  /** Form700_Blocking.loadData writes: one write per chunk of the
      category's store, in order; only the first replaces, and it does iff
      the category was not reset; the load finishes iff the catalog accepted
      every write. */
  lemma LoadDataWrites(catalog: Catalog, st: State, c: Category)
    requires Complete(st)
    ensures LoadData(catalog, st, c).Ok? <==>
      forall i :: 0 <= i < |Chunks(st.data[c])| ==>
        Accepted(catalog(Write(c, i, ModeAt(st.wasReset[c], i), Chunks(st.data[c])[i])))
    ensures LoadData(catalog, st, c).Ok? ==>
      var ld := LoadData(catalog, st, c).value;
      |ld.writes| == |Chunks(st.data[c])| &&
      forall i :: 0 <= i < |ld.writes| ==>
        ld.writes[i] == Write(c, i, ModeAt(st.wasReset[c], i), Chunks(st.data[c])[i])
  {
    var chunks := Chunks(st.data[c]);
    WritesFromSpec(catalog, c, chunks, 0, st.wasReset[c]);
    assert forall i :: 0 <= i < |chunks| ==>
      Write(c, 0 + i, ModeAt(st.wasReset[c], i), chunks[i]) == Write(c, i, ModeAt(st.wasReset[c], i), chunks[i]);
  }

  /** Form700_Blocking.loadData's effect: the category is reset iff it was
      already or it stored any row; the rows the catalog created are added to
      the category's `created` and, for a schedule, to `items`; the stores,
      the join table and every other counter stay as they were. */
  lemma LoadDataState(catalog: Catalog, st: State, c: Category)
    requires Complete(st)
    ensures LoadData(catalog, st, c).Ok? ==>
      var ld := LoadData(catalog, st, c).value;
      ld.st.data == st.data && ld.st.filings == st.filings &&
      ld.st.wasReset == st.wasReset[c := st.wasReset[c] || st.data[c] != []] &&
      ld.st.counters[Of(c)] == st.counters[Of(c)].(created := st.counters[Of(c)].created + CreatedBy(catalog, ld.writes)) &&
      ld.st.counters[Items] == (if c == Cover then st.counters[Items]
        else st.counters[Items].(created := st.counters[Items].created + CreatedBy(catalog, ld.writes))) &&
      forall x: Category :: x != c ==> ld.st.counters[Of(x)] == st.counters[Of(x)]
  {
    ChunksShape(st.data[c]);
    assert Chunks(st.data[c]) == [] <==> st.data[c] == [];
  }

  /** Counting created rows changes only `created` counters, by the same
      amount for a schedule category and for `items`, so the books stay
      balanced. */
  lemma AddCreatedAccounted(st: State, c: Category, n: int)
    requires Accounted(st)
    ensures Accounted(AddCreated(st, c, n))
  {
    var st' := AddCreated(st, c, n);
    forall t: Tally ensures Count(st'.counters[Items], t) == Sum(st', SCHEDULES, t) {
      CategoriesListed();
      SumBump(st, st', SCHEDULES, t, c, if t == Created then n else 0);
    }
  }

  /** Setting a reset flag keeps the books balanced. */
  lemma ResetAccounted(st: State, c: Category, b: bool)
    requires Accounted(st)
    ensures Accounted(st.(wasReset := st.wasReset[c := b]))
  {
    var st' := st.(wasReset := st.wasReset[c := b]);
    forall t: Tally ensures Count(st'.counters[Items], t) == Sum(st', SCHEDULES, t) {
      SumCounters(st, st', SCHEDULES, t);
    }
  }

  /** Loading keeps the books balanced. */
  lemma LoadDataAccounted(catalog: Catalog, st: State, c: Category)
    requires Accounted(st)
    ensures LoadData(catalog, st, c).Ok? ==> Accounted(LoadData(catalog, st, c).value.st)
  {
    if LoadData(catalog, st, c).Ok? {
      var ws := LoadData(catalog, st, c).value.writes;
      ResetAccounted(st, c, st.wasReset[c] || ws != []);
      AddCreatedAccounted(st.(wasReset := st.wasReset[c := st.wasReset[c] || ws != []]), c, CreatedBy(catalog, ws));
    }
  }

  /** Loading a category whose `created` starts at zero passes its load check
      exactly when the catalog reports as created as many rows as the
      category stores. */
  lemma LoadConfirmAfterLoad(catalog: Catalog, st: State, c: Category)
    requires Accounted(st) && st.counters[Of(c)].created == 0
    ensures LoadData(catalog, st, c).Ok? ==>
      var ld := LoadData(catalog, st, c).value;
      (LoadConfirm(ld.st, Of(c)) <==> CreatedBy(catalog, ld.writes) == |st.data[c]|)
  {
    LoadDataState(catalog, st, c);
  }
}
