/** The state a sync run accumulates: the filing join table, the per-category
    row store, the reconciliation counters and the per-category reset flags,
    with the checkpoint predicates read from the counters. */
module Ledger {
  import opened Values
  import opened Schemas

  /** A `sanity_check` entry: one per category, plus the aggregate `items`. */
  datatype Bucket = Of(category: Category) | Items

  /** total: rows NetFile announced (a JSON value, compared with `==`);
      received: rows read from NetFile; send: rows stored for the catalog;
      created: rows the catalog reports as created. */
  datatype Counter = Counter(total: Value, received: int, send: int, created: int)

  const ZERO: Counter := Counter(VInt(0), 0, 0, 0)

  datatype Tally = Received | Sent | Created

  function Count(k: Counter, t: Tally): int {
    match t
    case Received => k.received
    case Sent => k.send
    case Created => k.created
  }

  /** What the client object holds between calls. */
  datatype State = State(
    filings: map<Value, Row>,
    data: map<Category, seq<Row>>,
    counters: map<Bucket, Counter>,
    wasReset: map<Category, bool>)

  /** The seven schedule categories: every category but the cover. */
  const SCHEDULES: seq<Category> := CATEGORIES[1..]

  lemma CategoriesListed()
    ensures forall c: Category :: c in CATEGORIES
    ensures forall c: Category :: c != Cover <==> c in SCHEDULES
    ensures Distinct(CATEGORIES) && Distinct(SCHEDULES)
  {
    forall c: Category ensures c in CATEGORIES {
      match c
      case Cover => assert CATEGORIES[0] == c;
      case Comments => assert CATEGORIES[1] == c;
      case ScheduleA1 => assert CATEGORIES[2] == c;
      case ScheduleA2 => assert CATEGORIES[3] == c;
      case ScheduleB => assert CATEGORIES[4] == c;
      case ScheduleC => assert CATEGORIES[5] == c;
      case ScheduleD => assert CATEGORIES[6] == c;
      case ScheduleE => assert CATEGORIES[7] == c;
    }
    forall c: Category ensures c != Cover <==> c in SCHEDULES {
      assert c in CATEGORIES;
      assert CATEGORIES == [Cover] + SCHEDULES;
    }
  }

  /** Every category has its row store, reset flag and counter, and `items` has one. */
  ghost predicate Complete(st: State) {
    (forall c: Category :: c in st.data && c in st.wasReset && Of(c) in st.counters) &&
    Items in st.counters
  }

  /** The state `__init__` sets up: no filings, no rows, zero counters, nothing reset. */
  function Initial(): State
  {
    State(
      map[],
      map[Cover := [], Comments := [], ScheduleA1 := [], ScheduleA2 := [],
          ScheduleB := [], ScheduleC := [], ScheduleD := [], ScheduleE := []],
      map[Of(Cover) := ZERO, Of(Comments) := ZERO, Of(ScheduleA1) := ZERO, Of(ScheduleA2) := ZERO,
          Of(ScheduleB) := ZERO, Of(ScheduleC) := ZERO, Of(ScheduleD) := ZERO, Of(ScheduleE) := ZERO,
          Items := ZERO],
      map[Cover := false, Comments := false, ScheduleA1 := false, ScheduleA2 := false,
          ScheduleB := false, ScheduleC := false, ScheduleD := false, ScheduleE := false])
  }

  /** `__init__` gives every category an empty row store, zero counters and a
      cleared reset flag, and `items` zero counters; the join table is empty. */
  lemma InitialState()
    ensures Complete(Initial())
    ensures Initial().filings == map[] && Initial().counters[Items] == ZERO
    ensures forall c: Category ::
      Initial().data[c] == [] && Initial().counters[Of(c)] == ZERO && !Initial().wasReset[c]
  {
    var st := Initial();
    forall c: Category
      ensures c in st.data && c in st.wasReset && Of(c) in st.counters
      ensures st.data[c] == [] && st.counters[Of(c)] == ZERO && !st.wasReset[c]
    {
      match c
      case Cover =>
      case Comments =>
      case ScheduleA1 =>
      case ScheduleA2 =>
      case ScheduleB =>
      case ScheduleC =>
      case ScheduleD =>
      case ScheduleE =>
    }
  }

  /** Row stores and reset flags built category by category, all empty and
      cleared, are those of the initial state. */
  lemma InitialFrom(data: map<Category, seq<Row>>, wasReset: map<Category, bool>)
    requires forall c: Category :: c in data && data[c] == [] && c in wasReset && !wasReset[c]
    ensures data == Initial().data && wasReset == Initial().wasReset
  {
    InitialState();
  }

  /** A tally summed over some categories. */
  function Sum(st: State, cats: seq<Category>, t: Tally): int
    requires Complete(st)
  {
    if cats == [] then 0 else Count(st.counters[Of(cats[0])], t) + Sum(st, cats[1..], t)
  }

  /** The bookkeeping every step keeps: each category has sent exactly the rows
      it stores, a cover is sent as it is received, and the `items` counters
      are the sums of the seven schedule counters. */
  ghost predicate Accounted(st: State) {
    Complete(st) &&
    (forall c: Category :: st.counters[Of(c)].send == |st.data[c]|) &&
    st.counters[Of(Cover)].received == st.counters[Of(Cover)].send &&
    (forall t: Tally :: Count(st.counters[Items], t) == Sum(st, SCHEDULES, t))
  }

  lemma {:induction false} SumZero(st: State, cats: seq<Category>, t: Tally)
    requires Complete(st)
    requires forall c :: c in cats ==> Count(st.counters[Of(c)], t) == 0
    ensures Sum(st, cats, t) == 0
  {
    if cats != [] {
      SumZero(st, cats[1..], t);
    }
  }

  /** The run starts balanced. */
  lemma InitialAccounted()
    ensures Accounted(Initial())
  {
    InitialState();
    var st := Initial();
    forall t: Tally ensures Count(st.counters[Items], t) == Sum(st, SCHEDULES, t) {
      SumZero(st, SCHEDULES, t);
    }
  }

  /** Raising one category's tally by d raises the sum over a list holding
      that category once by d; the sum ignores every other change of counters
      outside the list. */
  lemma {:induction false} SumBump(st: State, st': State, cats: seq<Category>, t: Tally, c: Category, d: int)
    requires Complete(st) && Complete(st')
    requires Distinct(cats)
    requires forall x :: x in cats && x != c ==> Count(st'.counters[Of(x)], t) == Count(st.counters[Of(x)], t)
    requires Count(st'.counters[Of(c)], t) == Count(st.counters[Of(c)], t) + d
    ensures Sum(st', cats, t) == Sum(st, cats, t) + (if c in cats then d else 0)
  {
    if cats != [] {
      assert Distinct(cats[1..]) by {
        forall i, j | 0 <= i < j < |cats[1..]| ensures cats[1..][i] != cats[1..][j] {
          assert cats[1..][i] == cats[i + 1] && cats[1..][j] == cats[j + 1];
        }
      }
      assert cats[0] !in cats[1..] by {
        forall j | 0 <= j < |cats[1..]| ensures cats[1..][j] != cats[0] {
          assert cats[1..][j] == cats[j + 1];
        }
      }
      assert forall x :: x in cats <==> x == cats[0] || x in cats[1..];
      SumBump(st, st', cats[1..], t, c, d);
    }
  }

  /** Sums depend only on the counters. */
  lemma {:induction false} SumCounters(st: State, st': State, cats: seq<Category>, t: Tally)
    requires Complete(st) && Complete(st')
    requires forall x :: x in cats ==> Count(st'.counters[Of(x)], t) == Count(st.counters[Of(x)], t)
    ensures Sum(st', cats, t) == Sum(st, cats, t)
  {
    if cats != [] {
      SumCounters(st, st', cats[1..], t);
    }
  }

  /** Form700_Blocking.extractConfirmCover: NetFile's cover total equals the covers received. */
  predicate ExtractConfirmCover(st: State)
    requires Complete(st)
  {
    EqualsCount(st.counters[Of(Cover)].total, st.counters[Of(Cover)].received)
  }

  /** Form700_Blocking.extractConfirmSchedule: only the aggregate `items` counter is compared. */
  predicate ExtractConfirmSchedule(st: State)
    requires Complete(st)
  {
    EqualsCount(st.counters[Items].total, st.counters[Items].received)
  }

  /** Form700_Blocking.loadConfirm: every row sent was created. */
  predicate LoadConfirm(st: State, b: Bucket)
    requires b in st.counters
  {
    st.counters[b].send == st.counters[b].created
  }

  /** On a balanced state the aggregate load check holds exactly when the
      catalog created, over all seven schedule categories together, as many
      rows as they store; the received counter adds nothing to it, and the
      schedule extract check compares NetFile's total with the rows received
      summed over the seven categories. */
  lemma ItemsChecks(st: State)
    requires Accounted(st)
    ensures LoadConfirm(st, Items) <==> Sum(st, SCHEDULES, Created) == Sum(st, SCHEDULES, Sent)
    ensures ExtractConfirmSchedule(st) <==> EqualsCount(st.counters[Items].total, Sum(st, SCHEDULES, Received))
    ensures LoadConfirm(st, Of(Cover)) <==> st.counters[Of(Cover)].created == |st.data[Cover]|
  {
    assert Count(st.counters[Items], Created) == Sum(st, SCHEDULES, Created);
    assert Count(st.counters[Items], Sent) == Sum(st, SCHEDULES, Sent);
    assert Count(st.counters[Items], Received) == Sum(st, SCHEDULES, Received);
  }

  /** If every schedule category passes its own load check, so does `items`;
      the converse fails, which is why the per-category results, which the
      run discards, are weaker evidence than they look. */
  lemma {:induction false} CategoryChecksGiveItems(st: State, cats: seq<Category>)
    requires Complete(st)
    requires forall c :: c in cats ==> LoadConfirm(st, Of(c))
    ensures Sum(st, cats, Sent) == Sum(st, cats, Created)
  {
    if cats != [] {
      CategoryChecksGiveItems(st, cats[1..]);
    }
  }

  /** A sum over the schedules whose last five counters are zero is the sum
      of the first two. */
  lemma SumFirstTwo(st: State, t: Tally)
    requires Complete(st)
    requires Count(st.counters[Of(ScheduleA2)], t) == 0 && Count(st.counters[Of(ScheduleB)], t) == 0
    requires Count(st.counters[Of(ScheduleC)], t) == 0 && Count(st.counters[Of(ScheduleD)], t) == 0
    requires Count(st.counters[Of(ScheduleE)], t) == 0
    ensures Sum(st, SCHEDULES, t) == Count(st.counters[Of(Comments)], t) + Count(st.counters[Of(ScheduleA1)], t)
  {
    var l7 := [ScheduleE];
    var l6 := [ScheduleD] + l7;
    var l5 := [ScheduleC] + l6;
    var l4 := [ScheduleB] + l5;
    var l3 := [ScheduleA2] + l4;
    var l2 := [ScheduleA1] + l3;
    assert SCHEDULES == [Comments] + l2;
    SumCons(st, ScheduleE, [], t);
    SumCons(st, ScheduleD, l7, t);
    SumCons(st, ScheduleC, l6, t);
    SumCons(st, ScheduleB, l5, t);
    SumCons(st, ScheduleA2, l4, t);
    SumCons(st, ScheduleA1, l3, t);
    SumCons(st, Comments, l2, t);
  }

  /** One step of a sum. */
  lemma SumCons(st: State, c: Category, cats: seq<Category>, t: Tally)
    requires Complete(st)
    ensures Sum(st, [c] + cats, t) == Count(st.counters[Of(c)], t) + Sum(st, cats, t)
  {
    assert ([c] + cats)[1..] == cats;
  }

  /** The aggregate load check does not imply the per-category ones: on
      balanced books, a category short of created rows can be hidden by
      another that reports more rows created than it sent. */
  lemma ItemsCheckHidesCategoryMismatch()
    ensures Accounted(HiddenMismatch())
    ensures LoadConfirm(HiddenMismatch(), Items) && !LoadConfirm(HiddenMismatch(), Of(Comments))
  {
    HiddenMismatchStores();
    var st := HiddenMismatch();
    forall t: Tally ensures Count(st.counters[Items], t) == Sum(st, SCHEDULES, t) {
      SumFirstTwo(st, t);
    }
  }

  /** The witness has every store and counter, and each category sent exactly
      the rows it stores. */
  lemma HiddenMismatchStores()
    ensures Complete(HiddenMismatch())
    ensures forall c: Category :: HiddenMismatch().counters[Of(c)].send == |HiddenMismatch().data[c]|
  {
    var st := HiddenMismatch();
    forall c: Category
      ensures c in st.data && c in st.wasReset && Of(c) in st.counters
      ensures st.counters[Of(c)].send == |st.data[c]|
    {
      match c
      case Cover =>
      case Comments =>
      case ScheduleA1 =>
      case ScheduleA2 =>
      case ScheduleB =>
      case ScheduleC =>
      case ScheduleD =>
      case ScheduleE =>
    }
  }

  /** Balanced books on which comments sent two rows and the catalog created
      one, while schedule A1 sent one and the catalog reported two. */
  function HiddenMismatch(): State
  {
    var row: Row := map[];
    var none: seq<Row> := [];
    State(
      map[],
      map[Cover := none, Comments := [row, row], ScheduleA1 := [row], ScheduleA2 := none,
          ScheduleB := none, ScheduleC := none, ScheduleD := none, ScheduleE := none],
      map[Of(Cover) := ZERO, Of(Comments) := Counter(VInt(0), 2, 2, 1),
          Of(ScheduleA1) := Counter(VInt(0), 1, 1, 2), Of(ScheduleA2) := ZERO,
          Of(ScheduleB) := ZERO, Of(ScheduleC) := ZERO, Of(ScheduleD) := ZERO, Of(ScheduleE) := ZERO,
          Items := Counter(VInt(0), 3, 3, 3)],
      map[Cover := false, Comments := false, ScheduleA1 := false, ScheduleA2 := false,
          ScheduleB := false, ScheduleC := false, ScheduleD := false, ScheduleE := false])
  }
}
