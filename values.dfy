/** JSON values as the sync handles them, the halting error kinds, and the
    small Python semantics (iteration, indexing, str(), hashing, comparison)
    that the transformer relies on. */
module Values {

  /** A parsed JSON value (floating-point numbers are not modelled). */
  datatype Value =
    | VNull
    | VBool(b: bool)
    | VInt(i: int)
    | VStr(s: string)
    | VList(items: seq<Value>)
    | VRecord(fields: map<string, Value>)

  /** A flat row: a dictionary from column name to value. */
  type Row = map<string, Value>

  /** The reconciliation checkpoints of a run. */
  datatype Checkpoint = CoverExtract | CoverLoad | ScheduleExtract | ScheduleLoad

  /** Every way a run halts: an uncaught exception or a call to stop_all_execution. */
  datatype Halt =
    | KeyMissing(key: string)       // KeyError on a dictionary lookup
    | TypeMismatch                  // TypeError / AttributeError on a value of the wrong shape
    | ReprNotModelled               // str() of a nested list or record
    | UnknownFiling                 // the join found no filing record for a schedule item
    | RequestFailed(status: int)    // a non-success HTTP status
    | CatalogRaised                 // the catalog client raised
    | CatalogErrors(count: int)     // the catalog reported row errors
    | CountMismatch(at: Checkpoint) // a reconciliation check failed

  datatype Option<T> = None | Some(value: T)

  datatype Result<T> = Ok(value: T) | Err(halt: Halt) {
    predicate IsFailure() { Err? }
    function PropagateFailure<U>(): Result<U> requires Err? { Err(halt) }
    function Extract(): T requires Ok? { value }
  }

  /** The outcome of a step that returns nothing: it finishes or it halts. */
  datatype Status = Success | Failure(halt: Halt) {
    predicate IsFailure() { Failure? }
    function PropagateFailure(): Status requires Failure? { this }
  }

  /** The outcome of a computation whose value is dropped. */
  function StatusOf<T>(r: Result<T>): (s: Status)
    ensures s.Success? <==> r.Ok?
    ensures s.Failure? ==> s.halt == r.halt
  {
    match r
    case Ok(_) => Success
    case Err(h) => Failure(h)
  }

  /** `for x in v` (and `len(v)`) over a JSON value: a list yields its items;
      an empty string or empty dictionary yields nothing; a non-empty string or
      dictionary yields strings, and every use the sync makes of such an
      element raises; any other value is not iterable. */
  function Iterate(v: Value): Result<seq<Value>> {
    match v
    case VList(xs) => Ok(xs)
    case VStr(s) => if s == "" then Ok([]) else Err(TypeMismatch)
    case VRecord(m) => if m == map[] then Ok([]) else Err(TypeMismatch)
    case _ => Err(TypeMismatch)
  }

  /** `m[k]` on a dictionary. */
  function Lookup(m: Row, k: string): Result<Value> {
    if k in m then Ok(m[k]) else Err(KeyMissing(k))
  }

  /** `v[k]` on an arbitrary JSON value. */
  function Field(v: Value, k: string): Result<Value> {
    match v
    case VRecord(m) => Lookup(m, k)
    case _ => Err(TypeMismatch)
  }

  /** The dictionary behind a value that the code indexes by name. */
  function AsRecord(v: Value): Result<Row> {
    match v
    case VRecord(m) => Ok(m)
    case _ => Err(TypeMismatch)
  }

  /** A number as Python compares it with an int (True is 1, False is 0). */
  function AsInt(v: Value): Option<int> {
    match v
    case VInt(i) => Some(i)
    case VBool(b) => Some(if b then 1 else 0)
    case _ => None
  }

  /** `v == n` for a JSON value and an int counter. */
  predicate EqualsCount(v: Value, n: int) {
    AsInt(v) == Some(n)
  }

  /** The dictionary key a value stands for: Python identifies True with 1 and
      False with 0, and lists and dictionaries are unhashable. */
  function HashKey(v: Value): Result<Value> {
    match v
    case VBool(b) => Ok(VInt(if b then 1 else 0))
    case VList(_) => Err(TypeMismatch)
    case VRecord(_) => Err(TypeMismatch)
    case _ => Ok(v)
  }

  function DigitChar(d: nat): char
    requires d < 10
  {
    ['0', '1', '2', '3', '4', '5', '6', '7', '8', '9'][d]
  }

  /** Decimal digits of a natural number, most significant first. */
  function NatToDecimal(n: nat): string
    decreases n
  {
    if n < 10 then [DigitChar(n)] else NatToDecimal(n / 10) + [DigitChar(n % 10)]
  }

  /** The value of a string of decimal digits (the reading a decoder gives it). */
  function DecimalValue(s: string): int
  {
    if s == [] then 0 else DecimalValue(s[..|s| - 1]) * 10 + (s[|s| - 1] as int - '0' as int)
  }

  lemma DigitCharValue(d: nat)
    requires d < 10
    ensures DigitChar(d) as int - '0' as int == d
    ensures '0' <= DigitChar(d) <= '9'
  {
  }

  /** str() of a natural number reads back as that number, and never has a
      leading zero unless it is "0". */
  lemma {:induction false} NatToDecimalRoundTrip(n: nat)
    ensures DecimalValue(NatToDecimal(n)) == n
    ensures forall i :: 0 <= i < |NatToDecimal(n)| ==> '0' <= NatToDecimal(n)[i] <= '9'
    ensures |NatToDecimal(n)| > 1 ==> NatToDecimal(n)[0] != '0'
    decreases n
  {
    var s := NatToDecimal(n);
    if n < 10 {
      DigitCharValue(n);
    } else {
      NatToDecimalRoundTrip(n / 10);
      DigitCharValue(n % 10);
      assert s[..|s| - 1] == NatToDecimal(n / 10);
    }
  }

  /** Python's str() of an int. */
  function IntToDecimal(i: int): string {
    if i < 0 then "-" + NatToDecimal(-i) else NatToDecimal(i)
  }

  /** str(v), as an f-string formats a field: None, True/False, decimal ints and
      strings themselves. The text of a nested list or dictionary is not modelled. */
  function Str(v: Value): Result<string> {
    match v
    case VNull => Ok("None")
    case VBool(b) => Ok(if b then "True" else "False")
    case VInt(i) => Ok(IntToDecimal(i))
    case VStr(s) => Ok(s)
    case _ => Err(ReprNotModelled)
  }

  /** f applied to each element in order, where f may raise: the first failure halts. */
  function MapAll<X, Y>(xs: seq<X>, f: X -> Result<Y>): Result<seq<Y>>
  {
    if xs == [] then Ok([])
    else
      var y :- f(xs[0]);
      var ys :- MapAll(xs[1..], f);
      Ok([y] + ys)
  }

  /** Prefixes a partial result with the rows already produced by a loop. */
  function Prepend<Y>(done: seq<Y>, rest: Result<seq<Y>>): Result<seq<Y>>
  {
    match rest
    case Ok(ys) => Ok(done + ys)
    case Err(h) => Err(h)
  }

  lemma PrependNothing<Y>(rest: Result<seq<Y>>, done: seq<Y>)
    ensures Prepend([], rest) == rest
    ensures Prepend(done, Ok([])) == Ok(done)
  {
    assert done + [] == done;
    if rest.Ok? {
      assert [] + rest.value == rest.value;
    }
  }

  /** MapAll succeeds exactly when f succeeds on every element, and then
      yields one result per element, in order. */
  lemma {:induction false} MapAllOk<X, Y>(xs: seq<X>, f: X -> Result<Y>)
    ensures MapAll(xs, f).Ok? <==> forall i :: 0 <= i < |xs| ==> f(xs[i]).Ok?
    ensures MapAll(xs, f).Ok? ==>
      |MapAll(xs, f).value| == |xs| &&
      forall i :: 0 <= i < |xs| ==> MapAll(xs, f).value[i] == f(xs[i]).value
  {
    if xs != [] {
      MapAllOk(xs[1..], f);
      if f(xs[0]).Ok? && MapAll(xs[1..], f).Ok? {
        forall i | 0 <= i < |xs| ensures MapAll(xs, f).value[i] == f(xs[i]).value {
          if i > 0 { assert xs[1..][i - 1] == xs[i]; }
        }
      }
      if forall i :: 0 <= i < |xs| ==> f(xs[i]).Ok? {
        forall i | 0 <= i < |xs| - 1 ensures f(xs[1..][i]).Ok? {
          assert xs[1..][i] == xs[i + 1];
        }
      }
    }
  }

  /** One step of a loop that consumes xs[i] and appends its image. */
  lemma MapAllOne<X, Y>(x: X, f: X -> Result<Y>)
    ensures MapAll([x], f) == if f(x).Ok? then Ok([f(x).value]) else Err(f(x).halt)
  {
    assert [x][0] == x && [x][1..] == [];
    assert MapAll([x][1..], f) == Ok([]);
    if f(x).Ok? {
      assert [f(x).value] + [] == [f(x).value];
    }
  }

  lemma MapAllStep<X, Y>(xs: seq<X>, i: nat, f: X -> Result<Y>, done: seq<Y>)
    requires i < |xs| && f(xs[i]).Ok?
    ensures Prepend(done, MapAll(xs[i..], f)) == Prepend(done + [f(xs[i]).value], MapAll(xs[i + 1..], f))
  {
    assert xs[i..][1..] == xs[i + 1..];
    assert xs[i..][0] == xs[i];
    var rest := MapAll(xs[i + 1..], f);
    if rest.Ok? {
      assert MapAll(xs[i..], f) == Ok([f(xs[i]).value] + rest.value);
      assert done + ([f(xs[i]).value] + rest.value) == (done + [f(xs[i]).value]) + rest.value;
    }
  }

  /** The concatenation of a sequence of sequences. */
  function Concat<T>(ss: seq<seq<T>>): seq<T>
  {
    if ss == [] then [] else ss[0] + Concat(ss[1..])
  }

  lemma {:induction false} ConcatAppend<T>(ss: seq<seq<T>>, s: seq<T>)
    ensures Concat(ss + [s]) == Concat(ss) + s
  {
    if ss == [] {
      assert ss + [s] == [s];
    } else {
      assert (ss + [s])[1..] == ss[1..] + [s];
      ConcatAppend(ss[1..], s);
    }
  }

  /** The strings joined with `sep` between consecutive ones. */
  function Join(sep: string, xs: seq<string>): string
  {
    if xs == [] then "" else if |xs| == 1 then xs[0] else xs[0] + sep + Join(sep, xs[1..])
  }

  /** s split at every occurrence of the character c: always at least one part. */
  function Split(c: char, s: string): (parts: seq<string>)
    ensures |parts| >= 1
    decreases |s|
  {
    if s == [] then [""]
    else
      var rest := Split(c, s[1..]);
      if s[0] == c then [""] + rest else [[s[0]] + rest[0]] + rest[1..]
  }

  /** A string without the separator splits into itself. */
  lemma {:induction false} SplitNone(c: char, a: string)
    requires c !in a
    ensures Split(c, a) == [a]
    decreases |a|
  {
    if a != [] {
      SplitNone(c, a[1..]);
      assert [a[0]] + a[1..] == a;
    }
  }

  /** Splitting cuts at the first separator. */
  lemma {:induction false} SplitAtFirst(c: char, a: string, b: string)
    requires c !in a
    ensures Split(c, a + [c] + b) == [a] + Split(c, b)
    decreases |a|
  {
    if a == [] {
      assert a + [c] + b == [c] + b;
      assert ([c] + b)[1..] == b;
    } else {
      assert (a + [c] + b)[1..] == a[1..] + [c] + b;
      SplitAtFirst(c, a[1..], b);
      assert [a[0]] + a[1..] == a;
    }
  }

  /** Joining parts that do not contain the separator, and splitting the
      result, gives the parts back (for at least one part: "".split(c) is [""]). */
  lemma {:induction false} SplitJoin(c: char, xs: seq<string>)
    requires |xs| >= 1
    requires forall i :: 0 <= i < |xs| ==> c !in xs[i]
    ensures Split(c, Join([c], xs)) == xs
  {
    if |xs| == 1 {
      SplitNone(c, xs[0]);
    } else {
      SplitJoin(c, xs[1..]);
      SplitAtFirst(c, xs[0], Join([c], xs[1..]));
      assert [xs[0]] + xs[1..] == xs;
    }
  }
}
