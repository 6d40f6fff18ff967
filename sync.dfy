/** Form700_Blocking.sync: authenticate, extract every cover page, check and
    load the covers, extract every schedule page, check, load each schedule
    category, check the aggregate. NetFile and the catalog are inputs: a
    response for every request and a reply for every write. */
module SyncFlow {
  import opened Values
  import opened Schemas
  import opened Ledger
  import opened Transform
  import opened Loader

  /** The two NetFile endpoints the run reads. */
  datatype Endpoint = CoverApi | ScheduleApi

  /** A page request: `CurrentPageIndex` on one endpoint. */
  datatype Request = Request(endpoint: Endpoint, page: int)

  datatype Response = Response(status: int, body: Value)

  /** NetFile as the run sees it: a response for every request. */
  type Netfile = Request -> Response

  /** extractData: a status other than 200 or 201 halts; otherwise the body. */
  function Extract(netfile: Netfile, req: Request): (r: Result<Value>)
    ensures r.Ok? <==> netfile(req).status == 200 || netfile(req).status == 201
    ensures r.Ok? ==> r.value == netfile(req).body
    ensures r.Err? ==> r.halt == RequestFailed(netfile(req).status)
  {
    var resp := netfile(req);
    if resp.status in [200, 201] then Ok(resp.body) else Err(RequestFailed(resp.status))
  }

  /** logPageCounts: both counts of a first page are read. */
  function LogPageCounts(json: Value): Result<()>
  {
    var _ :- Field(json, "totalMatchingPages");
    var _ :- Field(json, "totalMatchingCount");
    Ok(())
  }

  /** `totalMatchingPages`, as the page loop compares it with an int: any
      value that is not a number makes the comparison raise. */
  function PageLimit(json: Value): Result<int>
  {
    var pages :- Field(json, "totalMatchingPages");
    match AsInt(pages)
    case Some(t) => Ok(t)
    case None => Err(TypeMismatch)
  }

  /** lo, lo + 1, ..., hi - 1. */
  function Range(lo: int, hi: int): (r: seq<int>)
    ensures |r| == if lo < hi then hi - lo else 0
    ensures forall i :: 0 <= i < |r| ==> r[i] == lo + i
    decreases hi - lo
  {
    if lo >= hi then [] else [lo] + Range(lo + 1, hi)
  }

  function Max(a: int, b: int): int { if a >= b then a else b }

  /** The cover pages requested when page 1 announces `t` pages: page 1,
      then every page up to and including that count. */
  function CoverPageList(t: int): seq<int> {
    [1] + Range(2, t + 1)
  }

  /** The schedule pages requested when page 1 announces `t` pages: page 1,
      then `while current_page < total_pages`, then one more at the page the
      loop stopped on. */
  function SchedulePageList(t: int): seq<int> {
    [1] + Range(2, t) + [Max(2, t)]
  }

  /** The cover loop reads pages 1 to t, and page 1 alone when t < 1; the
      schedule sequence reads pages 1 to t when t >= 2, but pages 1 and 2
      when t <= 1: a one-page result is asked for twice, as page 1 and as
      page 2. */
  lemma PageLists(t: int)
    ensures CoverPageList(t) == Range(1, Max(t, 1) + 1)
    ensures t >= 2 ==> SchedulePageList(t) == Range(1, t + 1)
    ensures t <= 1 ==> SchedulePageList(t) == [1, 2]
  {
    assert CoverPageList(t) == Range(1, Max(t, 1) + 1);
    if t >= 2 {
      assert SchedulePageList(t) == Range(1, t + 1);
    } else {
      assert Range(2, t) == [];
    }
  }

  /** One request to the endpoint per page, in order. */
  function Requests(e: Endpoint, pages: seq<int>): seq<Request>
  {
    if pages == [] then [] else [Request(e, pages[0])] + Requests(e, pages[1..])
  }

  lemma {:induction false} RequestsSpec(e: Endpoint, pages: seq<int>)
    ensures |Requests(e, pages)| == |pages|
    ensures forall i :: 0 <= i < |pages| ==> Requests(e, pages)[i] == Request(e, pages[i])
  {
    if pages != [] {
      RequestsSpec(e, pages[1..]);
    }
  }

  lemma {:induction false} RequestsAppend(e: Endpoint, a: seq<int>, b: seq<int>)
    ensures Requests(e, a + b) == Requests(e, a) + Requests(e, b)
  {
    if a != [] {
      assert (a + b)[1..] == a[1..] + b;
      RequestsAppend(e, a[1..], b);
    } else {
      assert a + b == b;
    }
  }

  /** The state and the requests made so far. */
  datatype Progress = Progress(st: State, requests: seq<Request>)

  /** transformCoverResponse or transformScheduleResponse: the state, a page's
      body and its page number in, the new state or a halt out. */
  type PageTransform = (State, Value, int) --> Result<State>

  /** A transform that applies to every complete state and keeps it complete. */
  ghost predicate KeepsComplete(transform: PageTransform) {
    forall st: State, json: Value, page: int :: Complete(st) ==>
      transform.requires(st, json, page) &&
      (transform(st, json, page).Ok? ==> Complete(transform(st, json, page).value))
  }

  /** A transform that keeps the books balanced and the reset flags as they are. */
  ghost predicate KeepsBooks(transform: PageTransform) {
    forall st: State, json: Value, page: int ::
      Accounted(st) && transform.requires(st, json, page) && transform(st, json, page).Ok? ==>
        Accounted(transform(st, json, page).value) &&
        transform(st, json, page).value.wasReset == st.wasReset
  }

  /** A transform that leaves the cover counters and the filer table alone. */
  ghost predicate KeepsCoverCounts(transform: PageTransform) {
    forall st: State, json: Value, page: int ::
      Accounted(st) && transform.requires(st, json, page) && transform(st, json, page).Ok? &&
      Complete(transform(st, json, page).value) ==>
        transform(st, json, page).value.counters[Of(Cover)] == st.counters[Of(Cover)] &&
        transform(st, json, page).value.filings == st.filings
  }

  function CoverTransform(setup: Setup): PageTransform
    requires Ready(setup)
  {
    (st: State, json: Value, page: int) requires Complete(st) => CoverPage(setup, st, json, page)
  }

  function ScheduleTransform(setup: Setup): PageTransform
  {
    (st: State, json: Value, page: int) requires Complete(st) => SchedulePage(setup, st, json, page)
  }

  /** The transform an endpoint's pages go through. */
  function TransformFor(setup: Setup, e: Endpoint): (r: PageTransform)
    requires Ready(setup)
    ensures KeepsComplete(r)
  {
    CoverTransformKeeps(setup);
    ScheduleTransformKeeps(setup);
    if e == CoverApi then CoverTransform(setup) else ScheduleTransform(setup)
  }

  /** transformCoverResponse keeps the state complete and the books balanced,
      and touches no reset flag. */
  lemma CoverTransformKeeps(setup: Setup)
    requires Ready(setup)
    ensures KeepsComplete(CoverTransform(setup)) && KeepsBooks(CoverTransform(setup))
  {
    var f := CoverTransform(setup);
    forall st: State, json: Value, page: int | Accounted(st) && f.requires(st, json, page) && f(st, json, page).Ok?
      ensures Accounted(f(st, json, page).value) && f(st, json, page).value.wasReset == st.wasReset
    {
      CoverPageSpec(setup, st, json, page);
    }
  }

  /** transformScheduleResponse keeps the state complete and the books
      balanced, and touches no reset flag, no cover counter and no filer. */
  lemma ScheduleTransformKeeps(setup: Setup)
    ensures KeepsComplete(ScheduleTransform(setup)) && KeepsBooks(ScheduleTransform(setup))
    ensures KeepsCoverCounts(ScheduleTransform(setup))
  {
    var f := ScheduleTransform(setup);
    forall st: State, json: Value, page: int | Accounted(st) && f.requires(st, json, page) && f(st, json, page).Ok?
      ensures Accounted(f(st, json, page).value) && f(st, json, page).value.wasReset == st.wasReset
      ensures f(st, json, page).value.counters[Of(Cover)] == st.counters[Of(Cover)]
      ensures f(st, json, page).value.filings == st.filings
    {
      SchedulePageSpec(setup, st, json, page);
    }
  }

  /** One page of an endpoint: its request, the response, and the transform. */
  function PageStep(transform: PageTransform, e: Endpoint, netfile: Netfile, p: Progress, page: int): (r: Result<Progress>)
    requires KeepsComplete(transform) && Complete(p.st)
    ensures r.Ok? ==> Complete(r.value.st)
  {
    var req := Request(e, page);
    var json :- Extract(netfile, req);
    var st1 :- transform(p.st, json, page);
    Ok(Progress(st1, p.requests + [req]))
  }

  /** A page loop over the given pages: one request per page, in order. */
  function PagesFrom(transform: PageTransform, e: Endpoint, netfile: Netfile, p: Progress, pages: seq<int>): (r: Result<Progress>)
    requires KeepsComplete(transform) && Complete(p.st)
    ensures r.Ok? ==> Complete(r.value.st) && r.value.requests == p.requests + Requests(e, pages)
    decreases |pages|
  {
    if pages == [] then Ok(p)
    else
      var p1 :- PageStep(transform, e, netfile, p, pages[0]);
      RequestsAppend(e, [pages[0]], pages[1..]);
      assert [pages[0]] + pages[1..] == pages;
      PagesFrom(transform, e, netfile, p1, pages[1..])
  }

  /** A page loop over lo to hi - 1: the first page, then the rest. */
  lemma PagesFromRange(transform: PageTransform, e: Endpoint, netfile: Netfile, p: Progress, lo: int, hi: int)
    requires KeepsComplete(transform) && Complete(p.st) && lo < hi
    ensures PagesFrom(transform, e, netfile, p, Range(lo, hi)) ==
      match PageStep(transform, e, netfile, p, lo)
      case Err(h) => Err(h)
      case Ok(p1) => PagesFrom(transform, e, netfile, p1, Range(lo + 1, hi))
  {
    assert Range(lo, hi)[0] == lo && Range(lo, hi)[1..] == Range(lo + 1, hi);
  }

  /** Partway through a page loop over lo to hi - 1 that started from p0:
      `page` is the next page and p what the pages before it left; the rest
      of the loop gives what the whole loop gives. */
  ghost predicate Paging(transform: PageTransform, e: Endpoint, netfile: Netfile, p0: Progress, lo: int, hi: int, page: int, p: Progress)
    requires KeepsComplete(transform) && Complete(p0.st)
  {
    Complete(p.st) && lo <= page && (lo < hi ==> page <= hi) && (hi <= lo ==> page == lo) &&
    PagesFrom(transform, e, netfile, p0, Range(lo, hi)) == PagesFrom(transform, e, netfile, p, Range(page, hi))
  }

  lemma PagingStart(transform: PageTransform, e: Endpoint, netfile: Netfile, p0: Progress, lo: int, hi: int)
    requires KeepsComplete(transform) && Complete(p0.st)
    ensures Paging(transform, e, netfile, p0, lo, hi, lo, p0)
  {
  }

  /** A page that went through moves the loop on by one page. */
  lemma PagingStep(transform: PageTransform, e: Endpoint, netfile: Netfile, p0: Progress, lo: int, hi: int, page: int, p: Progress, p': Progress)
    requires KeepsComplete(transform) && Complete(p0.st)
    requires Paging(transform, e, netfile, p0, lo, hi, page, p) && page < hi
    requires PageStep(transform, e, netfile, p, page) == Ok(p')
    ensures Paging(transform, e, netfile, p0, lo, hi, page + 1, p')
  {
    PagesFromRange(transform, e, netfile, p, page, hi);
  }

  /** A page that halts halts the loop. */
  lemma PagingStop(transform: PageTransform, e: Endpoint, netfile: Netfile, p0: Progress, lo: int, hi: int, page: int, p: Progress, h: Halt)
    requires KeepsComplete(transform) && Complete(p0.st)
    requires Paging(transform, e, netfile, p0, lo, hi, page, p) && page < hi
    requires PageStep(transform, e, netfile, p, page) == Err(h)
    ensures PagesFrom(transform, e, netfile, p0, Range(lo, hi)) == Err(h)
  {
    PagesFromRange(transform, e, netfile, p, page, hi);
  }

  /** Past the last page the loop has done what the model says, and it
      stopped on max(lo, hi). */
  lemma PagingDone(transform: PageTransform, e: Endpoint, netfile: Netfile, p0: Progress, lo: int, hi: int, page: int, p: Progress)
    requires KeepsComplete(transform) && Complete(p0.st)
    requires Paging(transform, e, netfile, p0, lo, hi, page, p) && hi <= page
    ensures PagesFrom(transform, e, netfile, p0, Range(lo, hi)) == Ok(p) && page == Max(lo, hi)
  {
  }

  /** Extracting the covers: page 1 and its counts, then pages 2 to the
      count page 1 announced. The requests are exactly those of
      CoverPageList for that count. */
  function ExtractCovers(transform: PageTransform, netfile: Netfile, p: Progress): (r: Result<Progress>)
    requires KeepsComplete(transform) && Complete(p.st)
    ensures r.Ok? ==> Complete(r.value.st)
    ensures r.Ok? ==>
      PageLimit(netfile(Request(CoverApi, 1)).body).Ok? &&
      r.value.requests == p.requests +
        Requests(CoverApi, CoverPageList(PageLimit(netfile(Request(CoverApi, 1)).body).value))
  {
    var req := Request(CoverApi, 1);
    var json :- Extract(netfile, req);
    var _ :- LogPageCounts(json);
    var st1 :- transform(p.st, json, 1);
    var t :- PageLimit(json);
    RequestsAppend(CoverApi, [1], Range(2, t + 1));
    PagesFrom(transform, CoverApi, netfile, Progress(st1, p.requests + [req]), Range(2, t + 1))
  }

  /** Past its first page, extracting the covers is the page loop over pages
      2 to the count page 1 announced. */
  lemma ExtractCoversFrom(transform: PageTransform, netfile: Netfile, p: Progress, json: Value, st1: State, t: int)
    requires KeepsComplete(transform) && Complete(p.st)
    requires Extract(netfile, Request(CoverApi, 1)) == Ok(json) && LogPageCounts(json).Ok?
    requires transform(p.st, json, 1) == Ok(st1) && PageLimit(json) == Ok(t)
    ensures Complete(st1)
    ensures ExtractCovers(transform, netfile, p) ==
      PagesFrom(transform, CoverApi, netfile, Progress(st1, p.requests + [Request(CoverApi, 1)]), Range(2, t + 1))
  {
  }

  /** The schedule loop after page 1 (`while current_page < total_pages`),
      then one more request at the page the loop stopped on. */
  function ScheduleTail(transform: PageTransform, netfile: Netfile, p: Progress, t: int): (r: Result<Progress>)
    requires KeepsComplete(transform) && Complete(p.st)
    ensures r.Ok? ==> Complete(r.value.st)
    ensures r.Ok? ==> r.value.requests == p.requests + Requests(ScheduleApi, Range(2, t) + [Max(2, t)])
  {
    var mid :- PagesFrom(transform, ScheduleApi, netfile, p, Range(2, t));
    RequestsAppend(ScheduleApi, Range(2, t), [Max(2, t)]);
    PageStep(transform, ScheduleApi, netfile, mid, Max(2, t))
  }

  /** Extracting the schedules: page 1 and its counts, the pages before the
      count page 1 announced, and once more the page the loop stopped on.
      The requests are exactly those of SchedulePageList for that count. */
  function ExtractSchedules(transform: PageTransform, netfile: Netfile, p: Progress): (r: Result<Progress>)
    requires KeepsComplete(transform) && Complete(p.st)
    ensures r.Ok? ==> Complete(r.value.st)
  {
    var req := Request(ScheduleApi, 1);
    var json :- Extract(netfile, req);
    var _ :- LogPageCounts(json);
    var st1 :- transform(p.st, json, 1);
    var t :- PageLimit(json);
    ScheduleTail(transform, netfile, Progress(st1, p.requests + [req]), t)
  }

  /** Past its first page, extracting the schedules is the schedule tail. */
  lemma ExtractSchedulesFrom(transform: PageTransform, netfile: Netfile, p: Progress, json: Value, st1: State, t: int)
    requires KeepsComplete(transform) && Complete(p.st)
    requires Extract(netfile, Request(ScheduleApi, 1)) == Ok(json) && LogPageCounts(json).Ok?
    requires transform(p.st, json, 1) == Ok(st1) && PageLimit(json) == Ok(t)
    ensures Complete(st1)
    ensures ExtractSchedules(transform, netfile, p) ==
      ScheduleTail(transform, netfile, Progress(st1, p.requests + [Request(ScheduleApi, 1)]), t)
  {
  }

  /** The schedule tail halts if the loop does, and otherwise is the one
      trailing page after it. */
  lemma ScheduleTailFrom(transform: PageTransform, netfile: Netfile, p: Progress, t: int)
    requires KeepsComplete(transform) && Complete(p.st)
    ensures ScheduleTail(transform, netfile, p, t) ==
      match PagesFrom(transform, ScheduleApi, netfile, p, Range(2, t))
      case Err(h) => Err(h)
      case Ok(mid) => PageStep(transform, ScheduleApi, netfile, mid, Max(2, t))
  {
  }

  /** The schedule requests are exactly those of SchedulePageList for the
      count page 1 announced. */
  lemma ExtractSchedulesRequests(transform: PageTransform, netfile: Netfile, p: Progress)
    requires KeepsComplete(transform) && Complete(p.st)
    ensures ExtractSchedules(transform, netfile, p).Ok? ==>
      PageLimit(netfile(Request(ScheduleApi, 1)).body).Ok? &&
      ExtractSchedules(transform, netfile, p).value.requests == p.requests +
        Requests(ScheduleApi, SchedulePageList(PageLimit(netfile(Request(ScheduleApi, 1)).body).value))
  {
    if ExtractSchedules(transform, netfile, p).Ok? {
      var req := Request(ScheduleApi, 1);
      var json := netfile(req).body;
      var t := PageLimit(json).value;
      var st1 := transform(p.st, json, 1).value;
      var tail := Range(2, t) + [Max(2, t)];
      assert ExtractSchedules(transform, netfile, p) == ScheduleTail(transform, netfile, Progress(st1, p.requests + [req]), t);
      RequestsAppend(ScheduleApi, [1], tail);
      assert SchedulePageList(t) == [1] + tail;
      assert p.requests + [req] + Requests(ScheduleApi, tail) == p.requests + Requests(ScheduleApi, [1] + tail);
    }
  }

  /** A checkpoint: a failed check halts the run. */
  function Check(ok: bool, at: Checkpoint): (r: Result<()>)
    ensures r.Ok? <==> ok
    ensures r.Err? ==> r.halt == CountMismatch(at)
  {
    if ok then Ok(()) else Err(CountMismatch(at))
  }

  /** The schedule load loop: loadData for each category in turn; the
      per-category loadConfirm result is not looked at. */
  function LoadSchedules(catalog: Catalog, st: State, cats: seq<Category>, writes: seq<Write>): (r: Result<Loaded>)
    requires Complete(st)
    ensures r.Ok? ==> Complete(r.value.st)
    decreases |cats|
  {
    if cats == [] then Ok(Loaded(st, writes))
    else
      var ld :- LoadData(catalog, st, cats[0]);
      LoadSchedules(catalog, ld.st, cats[1..], writes + ld.writes)
  }

  /** What a run has done so far: the state, every request to NetFile and
      every write to the catalog, in order. */
  datatype Run = Run(st: State, requests: seq<Request>, writes: seq<Write>)

  /** The authentication step: 200, 201 and 202 are success. */
  function Authenticated(status: int): (r: Result<()>)
    ensures r.Ok? <==> status == 200 || status == 201 || status == 202
    ensures r.Err? ==> r.halt == RequestFailed(status)
  {
    if status in [200, 201, 202] then Ok(()) else Err(RequestFailed(status))
  }

  /** The cover half of sync: extract every cover page, check the count,
      load the covers, check the load. */
  function CoverPhase(transform: PageTransform, netfile: Netfile, catalog: Catalog, st: State): (r: Result<Run>)
    requires KeepsComplete(transform) && Complete(st)
    ensures r.Ok? ==> Complete(r.value.st)
  {
    var covers :- ExtractCovers(transform, netfile, Progress(st, []));
    var _ :- Check(ExtractConfirmCover(covers.st), CoverExtract);
    var coverLoad :- LoadData(catalog, covers.st, Cover);
    var _ :- Check(LoadConfirm(coverLoad.st, Of(Cover)), CoverLoad);
    Ok(Run(coverLoad.st, covers.requests, coverLoad.writes))
  }

  /** The schedule half of sync: extract every schedule page, check the
      aggregate count, load each category, check the aggregate load. */
  function SchedulePhase(transform: PageTransform, netfile: Netfile, catalog: Catalog, covered: Run): (r: Result<Run>)
    requires KeepsComplete(transform) && Complete(covered.st)
    ensures r.Ok? ==> Complete(r.value.st)
    ensures r.Ok? ==>
      ExtractSchedules(transform, netfile, Progress(covered.st, covered.requests)).Ok? &&
      r.value.requests == ExtractSchedules(transform, netfile, Progress(covered.st, covered.requests)).value.requests
  {
    var schedules :- ExtractSchedules(transform, netfile, Progress(covered.st, covered.requests));
    var _ :- Check(ExtractConfirmSchedule(schedules.st), ScheduleExtract);
    var loads :- LoadSchedules(catalog, schedules.st, SCHEDULES, covered.writes);
    var _ :- Check(LoadConfirm(loads.st, Items), ScheduleLoad);
    Ok(Run(loads.st, schedules.requests, loads.writes))
  }

  /** The whole run with the two transforms as given. */
  function SyncWith(coverT: PageTransform, scheduleT: PageTransform, authStatus: int, netfile: Netfile, catalog: Catalog): Result<Run>
    requires KeepsComplete(coverT) && KeepsComplete(scheduleT)
  {
    var _ :- Authenticated(authStatus);
    InitialState();
    var covered :- CoverPhase(coverT, netfile, catalog, Initial());
    SchedulePhase(scheduleT, netfile, catalog, covered)
  }

  /** Form700_Blocking.sync, from the state `__init__` sets up. */
  function SyncRun(setup: Setup, authStatus: int, netfile: Netfile, catalog: Catalog): Result<Run>
    requires Ready(setup)
  {
    CoverTransformKeeps(setup);
    ScheduleTransformKeeps(setup);
    SyncWith(CoverTransform(setup), ScheduleTransform(setup), authStatus, netfile, catalog)
  }

  /** The run in its three steps: authentication, the cover half from the
      initial state, then the schedule half from where the cover half ended;
      a finished run's filer table is the one the cover half built, since
      schedule pages and loads only read it. */
  lemma SyncRunPhases(setup: Setup, authStatus: int, netfile: Netfile, catalog: Catalog)
    requires Ready(setup)
    ensures Complete(Initial())
    ensures SyncRun(setup, authStatus, netfile, catalog) ==
      if Authenticated(authStatus).Err? then Err(RequestFailed(authStatus))
      else
        match CoverPhase(TransformFor(setup, CoverApi), netfile, catalog, Initial())
        case Err(h) => Err(h)
        case Ok(covered) => SchedulePhase(TransformFor(setup, ScheduleApi), netfile, catalog, covered)
    ensures SyncRun(setup, authStatus, netfile, catalog).Ok? ==>
      CoverPhase(CoverTransform(setup), netfile, catalog, Initial()).Ok? &&
      SyncRun(setup, authStatus, netfile, catalog).value.st.filings ==
        CoverPhase(CoverTransform(setup), netfile, catalog, Initial()).value.st.filings
  {
    InitialState();
    assert TransformFor(setup, CoverApi) == CoverTransform(setup);
    assert TransformFor(setup, ScheduleApi) == ScheduleTransform(setup);
    if SyncRun(setup, authStatus, netfile, catalog).Ok? {
      CoverTransformKeeps(setup);
      ScheduleTransformKeeps(setup);
      InitialAccounted();
      CoverPhaseBooks(CoverTransform(setup), netfile, catalog, Initial());
      SchedulePhaseBooks(ScheduleTransform(setup), netfile, catalog, CoverPhase(CoverTransform(setup), netfile, catalog, Initial()).value);
    }
  }

  /** A failed authentication halts the run before any request. */
  lemma SyncAuthFails(setup: Setup, authStatus: int, netfile: Netfile, catalog: Catalog)
    requires Ready(setup)
    requires authStatus != 200 && authStatus != 201 && authStatus != 202
    ensures SyncRun(setup, authStatus, netfile, catalog) == Err(RequestFailed(authStatus))
  {
  }

  // ---------------------------------------------------------------- requests

  lemma CoverPhaseRequests(transform: PageTransform, netfile: Netfile, catalog: Catalog, st: State)
    requires KeepsComplete(transform) && Complete(st)
    ensures CoverPhase(transform, netfile, catalog, st).Ok? ==>
      PageLimit(netfile(Request(CoverApi, 1)).body).Ok? &&
      CoverPhase(transform, netfile, catalog, st).value.requests ==
        Requests(CoverApi, CoverPageList(PageLimit(netfile(Request(CoverApi, 1)).body).value))
  {
    if CoverPhase(transform, netfile, catalog, st).Ok? {
      var covers := ExtractCovers(transform, netfile, Progress(st, [])).value;
      assert [] + Requests(CoverApi, CoverPageList(PageLimit(netfile(Request(CoverApi, 1)).body).value)) ==
        Requests(CoverApi, CoverPageList(PageLimit(netfile(Request(CoverApi, 1)).body).value));
    }
  }

  lemma SchedulePhaseRequests(transform: PageTransform, netfile: Netfile, catalog: Catalog, covered: Run)
    requires KeepsComplete(transform) && Complete(covered.st)
    ensures SchedulePhase(transform, netfile, catalog, covered).Ok? ==>
      PageLimit(netfile(Request(ScheduleApi, 1)).body).Ok? &&
      SchedulePhase(transform, netfile, catalog, covered).value.requests == covered.requests +
        Requests(ScheduleApi, SchedulePageList(PageLimit(netfile(Request(ScheduleApi, 1)).body).value))
  {
    if SchedulePhase(transform, netfile, catalog, covered).Ok? {
      var p := Progress(covered.st, covered.requests);
      ExtractSchedulesRequests(transform, netfile, p);
      assert SchedulePhase(transform, netfile, catalog, covered).value.requests ==
        ExtractSchedules(transform, netfile, p).value.requests;
    }
  }

  lemma SyncWithRequests(coverT: PageTransform, scheduleT: PageTransform, authStatus: int, netfile: Netfile, catalog: Catalog)
    requires KeepsComplete(coverT) && KeepsComplete(scheduleT)
    ensures SyncWith(coverT, scheduleT, authStatus, netfile, catalog).Ok? ==>
      PageLimit(netfile(Request(CoverApi, 1)).body).Ok? &&
      PageLimit(netfile(Request(ScheduleApi, 1)).body).Ok? &&
      SyncWith(coverT, scheduleT, authStatus, netfile, catalog).value.requests ==
        Requests(CoverApi, CoverPageList(PageLimit(netfile(Request(CoverApi, 1)).body).value)) +
        Requests(ScheduleApi, SchedulePageList(PageLimit(netfile(Request(ScheduleApi, 1)).body).value))
  {
    if SyncWith(coverT, scheduleT, authStatus, netfile, catalog).Ok? {
      InitialState();
      CoverPhaseRequests(coverT, netfile, catalog, Initial());
      SchedulePhaseRequests(scheduleT, netfile, catalog, CoverPhase(coverT, netfile, catalog, Initial()).value);
    }
  }

  /** A finished run asked NetFile for cover pages 1 to the count the first
      cover page announced (page 1 alone if that is below 1), then for
      schedule page 1, the pages before the count the first schedule page
      announced, and one more page: the count itself, or page 2 when the
      count is below 2. */
  lemma SyncRequests(setup: Setup, authStatus: int, netfile: Netfile, catalog: Catalog)
    requires Ready(setup)
    ensures SyncRun(setup, authStatus, netfile, catalog).Ok? ==>
      PageLimit(netfile(Request(CoverApi, 1)).body).Ok? &&
      PageLimit(netfile(Request(ScheduleApi, 1)).body).Ok? &&
      SyncRun(setup, authStatus, netfile, catalog).value.requests ==
        Requests(CoverApi, CoverPageList(PageLimit(netfile(Request(CoverApi, 1)).body).value)) +
        Requests(ScheduleApi, SchedulePageList(PageLimit(netfile(Request(ScheduleApi, 1)).body).value))
  {
    CoverTransformKeeps(setup);
    ScheduleTransformKeeps(setup);
    SyncWithRequests(CoverTransform(setup), ScheduleTransform(setup), authStatus, netfile, catalog);
  }

  // ---------------------------------------------------------------- books

  lemma {:induction false} PagesFromBooks(transform: PageTransform, e: Endpoint, netfile: Netfile, p: Progress, pages: seq<int>)
    requires KeepsComplete(transform) && KeepsBooks(transform) && Accounted(p.st)
    ensures PagesFrom(transform, e, netfile, p, pages).Ok? ==>
      var st' := PagesFrom(transform, e, netfile, p, pages).value.st;
      Accounted(st') && st'.wasReset == p.st.wasReset
    decreases |pages|
  {
    if pages != [] && PagesFrom(transform, e, netfile, p, pages).Ok? {
      PagesFromBooks(transform, e, netfile, PageStep(transform, e, netfile, p, pages[0]).value, pages[1..]);
    }
  }

  lemma {:induction false} PagesFromCoverCounts(transform: PageTransform, e: Endpoint, netfile: Netfile, p: Progress, pages: seq<int>)
    requires KeepsComplete(transform) && KeepsBooks(transform) && KeepsCoverCounts(transform)
    requires Accounted(p.st)
    ensures PagesFrom(transform, e, netfile, p, pages).Ok? ==>
      PagesFrom(transform, e, netfile, p, pages).value.st.counters[Of(Cover)] == p.st.counters[Of(Cover)] &&
      PagesFrom(transform, e, netfile, p, pages).value.st.filings == p.st.filings
    decreases |pages|
  {
    if pages != [] && PagesFrom(transform, e, netfile, p, pages).Ok? {
      PagesFromCoverCounts(transform, e, netfile, PageStep(transform, e, netfile, p, pages[0]).value, pages[1..]);
    }
  }

  lemma ExtractCoversBooks(transform: PageTransform, netfile: Netfile, p: Progress)
    requires KeepsComplete(transform) && KeepsBooks(transform) && Accounted(p.st)
    ensures ExtractCovers(transform, netfile, p).Ok? ==>
      var st' := ExtractCovers(transform, netfile, p).value.st;
      Accounted(st') && st'.wasReset == p.st.wasReset
  {
    if ExtractCovers(transform, netfile, p).Ok? {
      var json := Extract(netfile, Request(CoverApi, 1)).value;
      var st1 := transform(p.st, json, 1).value;
      var t := PageLimit(json).value;
      PagesFromBooks(transform, CoverApi, netfile, Progress(st1, p.requests + [Request(CoverApi, 1)]), Range(2, t + 1));
    }
  }

  lemma ExtractSchedulesBooks(transform: PageTransform, netfile: Netfile, p: Progress)
    requires KeepsComplete(transform) && KeepsBooks(transform) && KeepsCoverCounts(transform)
    requires Accounted(p.st)
    ensures ExtractSchedules(transform, netfile, p).Ok? ==>
      var st' := ExtractSchedules(transform, netfile, p).value.st;
      Accounted(st') && st'.wasReset == p.st.wasReset && st'.counters[Of(Cover)] == p.st.counters[Of(Cover)] &&
      st'.filings == p.st.filings
  {
    if ExtractSchedules(transform, netfile, p).Ok? {
      var json := Extract(netfile, Request(ScheduleApi, 1)).value;
      var p1 := Progress(transform(p.st, json, 1).value, p.requests + [Request(ScheduleApi, 1)]);
      var t := PageLimit(json).value;
      PagesFromBooks(transform, ScheduleApi, netfile, p1, Range(2, t));
      PagesFromCoverCounts(transform, ScheduleApi, netfile, p1, Range(2, t));
    }
  }

  /** Every write replaces exactly when it carries its category's first chunk. */
  predicate FirstChunkReplaces(writes: seq<Write>) {
    forall i :: 0 <= i < |writes| ==> (writes[i].mode == Replace <==> writes[i].chunk == 0)
  }

  /** Loading a category that was never reset writes its first chunk with
      replace and every other with upsert. */
  lemma LoadFreshCategory(catalog: Catalog, st: State, c: Category)
    requires Complete(st) && !st.wasReset[c]
    ensures LoadData(catalog, st, c).Ok? ==> FirstChunkReplaces(LoadData(catalog, st, c).value.writes)
  {
    LoadDataWrites(catalog, st, c);
  }

  lemma FirstChunkReplacesAppend(a: seq<Write>, b: seq<Write>)
    requires FirstChunkReplaces(a) && FirstChunkReplaces(b)
    ensures FirstChunkReplaces(a + b)
  {
    forall i | 0 <= i < |a + b| ensures (a + b)[i].mode == Replace <==> (a + b)[i].chunk == 0 {
      if i >= |a| {
        assert (a + b)[i] == b[i - |a|];
      }
    }
  }

  lemma {:induction false} LoadSchedulesBooks(catalog: Catalog, st: State, cats: seq<Category>, writes: seq<Write>)
    requires Accounted(st) && Cover !in cats && Distinct(cats)
    requires forall c :: c in cats ==> !st.wasReset[c]
    requires FirstChunkReplaces(writes)
    ensures LoadSchedules(catalog, st, cats, writes).Ok? ==>
      var st' := LoadSchedules(catalog, st, cats, writes).value.st;
      Accounted(st') && st'.counters[Of(Cover)] == st.counters[Of(Cover)] &&
      st'.counters[Items].total == st.counters[Items].total &&
      st'.counters[Items].received == st.counters[Items].received && st'.filings == st.filings &&
      FirstChunkReplaces(LoadSchedules(catalog, st, cats, writes).value.writes)
    decreases |cats|
  {
    if cats != [] && LoadSchedules(catalog, st, cats, writes).Ok? {
      var c := cats[0];
      LoadDataState(catalog, st, c);
      LoadDataAccounted(catalog, st, c);
      LoadFreshCategory(catalog, st, c);
      var ld := LoadData(catalog, st, c).value;
      DistinctTail(cats);
      assert forall x :: x in cats[1..] ==> x in cats && x != c;
      FirstChunkReplacesAppend(writes, ld.writes);
      LoadSchedulesBooks(catalog, ld.st, cats[1..], writes + ld.writes);
    }
  }

  /** The cover half leaves balanced books, passes both cover checks, has
      replaced only on first chunks, and has reset no schedule category. */
  lemma CoverPhaseBooks(transform: PageTransform, netfile: Netfile, catalog: Catalog, st: State)
    requires KeepsComplete(transform) && KeepsBooks(transform)
    requires Accounted(st) && forall c: Category :: !st.wasReset[c]
    ensures CoverPhase(transform, netfile, catalog, st).Ok? ==>
      var run := CoverPhase(transform, netfile, catalog, st).value;
      Accounted(run.st) && ExtractConfirmCover(run.st) && LoadConfirm(run.st, Of(Cover)) &&
      FirstChunkReplaces(run.writes) && forall c :: c != Cover ==> !run.st.wasReset[c]
  {
    if CoverPhase(transform, netfile, catalog, st).Ok? {
      var p0 := Progress(st, []);
      ExtractCoversBooks(transform, netfile, p0);
      var covers := ExtractCovers(transform, netfile, p0).value;
      LoadDataState(catalog, covers.st, Cover);
      LoadDataAccounted(catalog, covers.st, Cover);
      LoadFreshCategory(catalog, covers.st, Cover);
    }
  }

  /** The schedule half keeps what the cover half established, filer table
      included, and passes both schedule checks. */
  lemma SchedulePhaseBooks(transform: PageTransform, netfile: Netfile, catalog: Catalog, covered: Run)
    requires KeepsComplete(transform) && KeepsBooks(transform) && KeepsCoverCounts(transform)
    requires Accounted(covered.st) && ExtractConfirmCover(covered.st) && LoadConfirm(covered.st, Of(Cover))
    requires FirstChunkReplaces(covered.writes) && forall c :: c != Cover ==> !covered.st.wasReset[c]
    ensures SchedulePhase(transform, netfile, catalog, covered).Ok? ==>
      var run := SchedulePhase(transform, netfile, catalog, covered).value;
      Accounted(run.st) && ExtractConfirmCover(run.st) && LoadConfirm(run.st, Of(Cover)) &&
      ExtractConfirmSchedule(run.st) && LoadConfirm(run.st, Items) && FirstChunkReplaces(run.writes) &&
      run.st.filings == covered.st.filings
  {
    if SchedulePhase(transform, netfile, catalog, covered).Ok? {
      CategoriesListed();
      var p := Progress(covered.st, covered.requests);
      ExtractSchedulesBooks(transform, netfile, p);
      var schedules := ExtractSchedules(transform, netfile, p).value;
      LoadSchedulesBooks(catalog, schedules.st, SCHEDULES, covered.writes);
    }
  }

  lemma SyncWithChecks(coverT: PageTransform, scheduleT: PageTransform, authStatus: int, netfile: Netfile, catalog: Catalog)
    requires KeepsComplete(coverT) && KeepsBooks(coverT)
    requires KeepsComplete(scheduleT) && KeepsBooks(scheduleT) && KeepsCoverCounts(scheduleT)
    ensures SyncWith(coverT, scheduleT, authStatus, netfile, catalog).Ok? ==>
      var run := SyncWith(coverT, scheduleT, authStatus, netfile, catalog).value;
      Accounted(run.st) &&
      ExtractConfirmCover(run.st) && LoadConfirm(run.st, Of(Cover)) &&
      ExtractConfirmSchedule(run.st) && LoadConfirm(run.st, Items) &&
      FirstChunkReplaces(run.writes)
  {
    if SyncWith(coverT, scheduleT, authStatus, netfile, catalog).Ok? {
      InitialState();
      InitialAccounted();
      CoverPhaseBooks(coverT, netfile, catalog, Initial());
      SchedulePhaseBooks(scheduleT, netfile, catalog, CoverPhase(coverT, netfile, catalog, Initial()).value);
    }
  }

  /** A finished run passed every checkpoint, and the state it leaves still
      shows it: the covers received match NetFile's cover total, the covers
      created match those sent, the schedule items received match NetFile's
      items total and the schedule rows created match those sent, summed over
      the seven categories; the books are balanced; and every write replaced
      its dataset exactly when it carried a category's first chunk. */
  lemma SyncChecks(setup: Setup, authStatus: int, netfile: Netfile, catalog: Catalog)
    requires Ready(setup)
    ensures SyncRun(setup, authStatus, netfile, catalog).Ok? ==>
      var run := SyncRun(setup, authStatus, netfile, catalog).value;
      Accounted(run.st) &&
      ExtractConfirmCover(run.st) && LoadConfirm(run.st, Of(Cover)) &&
      ExtractConfirmSchedule(run.st) && LoadConfirm(run.st, Items) &&
      FirstChunkReplaces(run.writes)
  {
    CoverTransformKeeps(setup);
    ScheduleTransformKeeps(setup);
    SyncWithChecks(CoverTransform(setup), ScheduleTransform(setup), authStatus, netfile, catalog);
  }
}
