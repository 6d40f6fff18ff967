/** explodeScheduleA2, explodeScheduleB and explodeScheduleD: one nested
    schedule item becomes zero, one or several flat rows, projected onto the
    category's schema. */
module Explode {
  import opened Values
  import opened Schemas

  /** The row's own fields, with `prefix + k` set to `fields[k]` for every key k. */
  function Prefixed(prefix: string, fields: Row): Row
  {
    PrefixInjective(prefix);
    map k | k in fields :: prefix + k := fields[k]
  }

  predicate HasPrefix(s: string, prefix: string) {
    |prefix| <= |s| && s[..|prefix|] == prefix
  }

  lemma PrefixInjective(prefix: string)
    ensures forall a: string, b: string {:trigger prefix + a, prefix + b} :: prefix + a == prefix + b ==> a == b
  {
    forall a: string, b: string | prefix + a == prefix + b ensures a == b {
      assert (prefix + a)[|prefix|..] == a;
      assert (prefix + b)[|prefix|..] == b;
    }
  }

  /** A prefixed key is found exactly under its unprefixed name. */
  lemma PrefixedLookup(prefix: string, fields: Row, c: string)
    ensures c in Prefixed(prefix, fields) <==> HasPrefix(c, prefix) && c[|prefix|..] in fields
    ensures c in Prefixed(prefix, fields) ==> Prefixed(prefix, fields)[c] == fields[c[|prefix|..]]
  {
    if HasPrefix(c, prefix) && c[|prefix|..] in fields {
      assert c == prefix + c[|prefix|..];
    }
    if c in Prefixed(prefix, fields) {
      var k :| k in fields && c == prefix + k;
      assert c[|prefix|..] == k;
    }
  }

  /** Copying one more field adds exactly its prefixed key. */
  lemma PrefixedInsert(prefix: string, fields: Row, k: string, v: Value)
    ensures Prefixed(prefix, fields[k := v]) == Prefixed(prefix, fields)[prefix + k := v]
  {
    var lhs := Prefixed(prefix, fields[k := v]);
    var rhs := Prefixed(prefix, fields)[prefix + k := v];
    forall c ensures (c in lhs <==> c in rhs) && (c in lhs ==> lhs[c] == rhs[c]) {
      PrefixedLookup(prefix, fields[k := v], c);
      PrefixedLookup(prefix, fields, c);
      if c == prefix + k { assert c[|prefix|..] == k; }
      if HasPrefix(c, prefix) && c[|prefix|..] == k { assert c == prefix + k; }
    }
  }

  /** Copying the fields of `done` and then one more, k, copies `done[k := v]`. */
  lemma CopyPrefixedStep(prefix: string, row: Row, done: Row, k: string, v: Value, r: Row)
    requires r == row + Prefixed(prefix, done)
    ensures r[prefix + k := v] == row + Prefixed(prefix, done[k := v])
  {
    PrefixedInsert(prefix, done, k, v);
  }

  /** Every field of `fields` copied onto the row under its prefixed name, one key at a time. */
  method CopyPrefixed(prefix: string, fields: Row, row: Row) returns (r: Row)
    ensures r == row + Prefixed(prefix, fields)
  {
    r := row;
    var todo := fields.Keys;
    ghost var done: Row := map[];
    while todo != {}
      invariant todo !! done.Keys && todo + done.Keys == fields.Keys
      invariant forall k :: k in done ==> done[k] == fields[k]
      invariant r == row + Prefixed(prefix, done)
      decreases todo
    {
      var k :| k in todo;
      CopyPrefixedStep(prefix, row, done, k, fields[k], r);
      r := r[prefix + k := fields[k]];
      done := done[k := fields[k]];
      todo := todo - {k};
    }
    assert done == fields;
  }

  // ---------------------------------------------------------------- schedule A2

  /** The eleven columns explodeScheduleA2 sets to None for an item without real property. */
  const REAL_PROPERTY_COLUMNS: seq<string> := [
    "realProperty_investmentType",
    "realProperty_businessName",
    "realProperty_parcelAddress",
    "realProperty_descriptionOrCityOrLocation",
    "realProperty_dateAcquired",
    "realProperty_dateDisposed",
    "realProperty_fairMarketValue",
    "realProperty_fairMarketValueAsRange",
    "realProperty_natureOfInterest",
    "realProperty_natureOfInterest_LeaseYearsRemaining",
    "realProperty_natureOfInterest_OtherDescription"
  ]

  const NO_REAL_PROPERTY: Row := map c | c in REAL_PROPERTY_COLUMNS :: VNull

  /** The row for one real property, before projection. */
  function PropertyRow(item: Row, property: Value): Result<Row>
  {
    var fields :- AsRecord(property);
    Ok((item + Prefixed("realProperty_", fields)) - {"realProperties"})
  }

  function PropertyRowPicked(schema: Schema, item: Row, property: Value): Result<Row>
  {
    var row :- PropertyRow(item, property);
    PickKeys(schema, row)
  }

  function PropertyRowOf(schema: Schema, item: Row): Value -> Result<Row>
  {
    p => PropertyRowPicked(schema, item, p)
  }

  /** explodeScheduleA2 as a value: one None-filled row when `realProperties`
      is empty, else one row per property, in order. */
  function ExplodeA2Rows(schema: Schema, item: Row): Result<seq<Row>>
  {
    var listed :- Lookup(item, "realProperties");
    var props :- Iterate(listed);
    if props == [] then
      var row :- PickKeys(schema, (item + NO_REAL_PROPERTY) - {"realProperties"});
      Ok([row])
    else
      MapAll(props, PropertyRowOf(schema, item))
  }

  /** Form700_Blocking.explodeScheduleA2. */
  method ExplodeScheduleA2(schema: Schema, item: Row) returns (r: Result<seq<Row>>)
    ensures r == ExplodeA2Rows(schema, item)
  {
    if "realProperties" !in item {
      return Err(KeyMissing("realProperties"));
    }
    var listed := Iterate(item["realProperties"]);
    if listed.Err? {
      return Err(listed.halt);
    }
    var props := listed.value;
    if |props| == 0 {
      var empty := item + NO_REAL_PROPERTY;
      empty := empty - {"realProperties"};
      var picked := PickKeys(schema, empty);
      if picked.Err? {
        return Err(picked.halt);
      }
      return Ok([picked.value]);
    }
    r := ExplodeProperties(schema, item, props);
  }

  /** The loop of explodeScheduleA2 over a non-empty property list. */
  method ExplodeProperties(schema: Schema, item: Row, props: seq<Value>) returns (r: Result<seq<Row>>)
    ensures r == MapAll(props, PropertyRowOf(schema, item))
  {
    var res: seq<Row> := [];
    var i := 0;
    assert props[0..] == props;
    PrependNothing(MapAll(props, PropertyRowOf(schema, item)), res);
    while i < |props|
      invariant 0 <= i <= |props|
      invariant MapAll(props, PropertyRowOf(schema, item)) == Prepend(res, MapAll(props[i..], PropertyRowOf(schema, item)))
    {
      assert props[i..][0] == props[i];
      assert props[i..][1..] == props[i + 1..];
      if !props[i].VRecord? {
        return Err(TypeMismatch);
      }
      var newItem := CopyPrefixed("realProperty_", props[i].fields, item);
      newItem := newItem - {"realProperties"};
      var picked := PickKeys(schema, newItem);
      if picked.Err? {
        return Err(picked.halt);
      }
      MapAllStep(props, i, PropertyRowOf(schema, item), res);
      res := res + [picked.value];
      i := i + 1;
    }
    assert props[i..] == [];
    PrependNothing(MapAll(props[i..], PropertyRowOf(schema, item)), res);
    return Ok(res);
  }

  /** No real property: exactly one row, whose real-property columns are None
      and whose other columns are the item's; `realProperties` is dropped. It
      is produced exactly when every schema column is one of the item's own
      keys or a None-filled column, and is not `realProperties`. */
  lemma ExplodeA2Empty(schema: Schema, item: Row)
    requires "realProperties" in item && Iterate(item["realProperties"]) == Ok([])
    ensures ExplodeA2Rows(schema, item).Ok? <==>
      forall c :: c in Columns(schema) ==> c != "realProperties" && (c in item || c in REAL_PROPERTY_COLUMNS)
    ensures ExplodeA2Rows(schema, item).Ok? ==>
      var rows := ExplodeA2Rows(schema, item).value;
      |rows| == 1 && "realProperties" !in rows[0] &&
      rows[0].Keys == (set c | c in Columns(schema)) &&
      forall c :: c in rows[0] ==>
        if c in REAL_PROPERTY_COLUMNS then rows[0][c] == VNull else c in item && rows[0][c] == item[c]
  {
    var merged := (item + NO_REAL_PROPERTY) - {"realProperties"};
    PickKeysSpec(schema, merged);
  }

  /** N real properties: exactly N rows, in order; row i holds
      `realProperty_k = property_i[k]` for every key k of property i and the
      item's own value in every other column; `realProperties` is dropped. The
      rows are produced exactly when every property is a record and every
      schema column other than `realProperties` is the item's own key or a
      prefixed key of that property; a property that is not a record halts. */
  lemma ExplodeA2Many(schema: Schema, item: Row, props: seq<Value>)
    requires "realProperties" in item && Iterate(item["realProperties"]) == Ok(props) && props != []
    ensures ExplodeA2Rows(schema, item).Ok? <==>
      forall i :: 0 <= i < |props| ==>
        props[i].VRecord? &&
        forall c :: c in Columns(schema) ==>
          c != "realProperties" &&
          (c in item || (HasPrefix(c, "realProperty_") && c[|"realProperty_"|..] in props[i].fields))
    ensures ExplodeA2Rows(schema, item).Ok? ==>
      var rows := ExplodeA2Rows(schema, item).value;
      |rows| == |props| &&
      forall i :: 0 <= i < |props| ==>
        props[i].VRecord? && "realProperties" !in rows[i] &&
        rows[i].Keys == (set c | c in Columns(schema)) &&
        forall c :: c in rows[i] ==>
          if HasPrefix(c, "realProperty_") && c[|"realProperty_"|..] in props[i].fields
            then rows[i][c] == props[i].fields[c[|"realProperty_"|..]]
            else c in item && rows[i][c] == item[c]
    ensures (exists i :: 0 <= i < |props| && !props[i].VRecord?) ==> ExplodeA2Rows(schema, item).Err?
  {
    ExplodeA2ManySucceeds(schema, item, props);
    ExplodeA2ManyRows(schema, item, props);
  }

  /** When one property's row is produced. */
  lemma PropertyRowSucceeds(schema: Schema, item: Row, property: Value)
    ensures PropertyRowPicked(schema, item, property).Ok? <==>
      property.VRecord? &&
      forall c :: c in Columns(schema) ==>
        c != "realProperties" &&
        (c in item || (HasPrefix(c, "realProperty_") && c[|"realProperty_"|..] in property.fields))
  {
    if property.VRecord? {
      var fields := property.fields;
      var merged := (item + Prefixed("realProperty_", fields)) - {"realProperties"};
      PickKeysSpec(schema, merged);
      forall c ensures c in merged <==>
        c != "realProperties" && (c in item || (HasPrefix(c, "realProperty_") && c[|"realProperty_"|..] in fields))
      {
        PrefixedLookup("realProperty_", fields, c);
      }
    }
  }

  /** When the rows for a non-empty property list are produced. */
  lemma ExplodeA2ManySucceeds(schema: Schema, item: Row, props: seq<Value>)
    requires "realProperties" in item && Iterate(item["realProperties"]) == Ok(props) && props != []
    ensures ExplodeA2Rows(schema, item).Ok? <==>
      forall i :: 0 <= i < |props| ==>
        props[i].VRecord? &&
        forall c :: c in Columns(schema) ==>
          c != "realProperties" &&
          (c in item || (HasPrefix(c, "realProperty_") && c[|"realProperty_"|..] in props[i].fields))
  {
    var f := PropertyRowOf(schema, item);
    MapAllOk(props, f);
    forall i | 0 <= i < |props|
      ensures f(props[i]).Ok? <==>
        props[i].VRecord? &&
        forall c :: c in Columns(schema) ==>
          c != "realProperties" &&
          (c in item || (HasPrefix(c, "realProperty_") && c[|"realProperty_"|..] in props[i].fields))
    {
      PropertyRowSucceeds(schema, item, props[i]);
    }
  }

  /** What the rows for a non-empty property list hold. */
  lemma ExplodeA2ManyRows(schema: Schema, item: Row, props: seq<Value>)
    requires "realProperties" in item && Iterate(item["realProperties"]) == Ok(props) && props != []
    ensures ExplodeA2Rows(schema, item).Ok? ==>
      var rows := ExplodeA2Rows(schema, item).value;
      |rows| == |props| &&
      forall i :: 0 <= i < |props| ==>
        props[i].VRecord? && "realProperties" !in rows[i] &&
        rows[i].Keys == (set c | c in Columns(schema)) &&
        forall c :: c in rows[i] ==>
          if HasPrefix(c, "realProperty_") && c[|"realProperty_"|..] in props[i].fields
            then rows[i][c] == props[i].fields[c[|"realProperty_"|..]]
            else c in item && rows[i][c] == item[c]
    ensures (exists i :: 0 <= i < |props| && !props[i].VRecord?) ==> ExplodeA2Rows(schema, item).Err?
  {
    var f := PropertyRowOf(schema, item);
    MapAllOk(props, f);
    if ExplodeA2Rows(schema, item).Ok? {
      var rows := ExplodeA2Rows(schema, item).value;
      forall i | 0 <= i < |props|
        ensures props[i].VRecord? && "realProperties" !in rows[i]
        ensures rows[i].Keys == (set c | c in Columns(schema))
        ensures forall c :: c in rows[i] ==>
          if HasPrefix(c, "realProperty_") && c[|"realProperty_"|..] in props[i].fields
            then rows[i][c] == props[i].fields[c[|"realProperty_"|..]]
            else c in item && rows[i][c] == item[c]
      {
        assert f(props[i]).Ok?;
        var fields := props[i].fields;
        var merged := (item + Prefixed("realProperty_", fields)) - {"realProperties"};
        PickKeysSpec(schema, merged);
        forall c | c in rows[i]
          ensures if HasPrefix(c, "realProperty_") && c[|"realProperty_"|..] in fields
            then rows[i][c] == fields[c[|"realProperty_"|..]]
            else c in item && rows[i][c] == item[c]
        {
          PrefixedLookup("realProperty_", fields, c);
        }
      }
    }
    if exists i :: 0 <= i < |props| && !props[i].VRecord? {
      var i :| 0 <= i < |props| && !props[i].VRecord?;
      assert f(props[i]).Err?;
    }
  }

  // ---------------------------------------------------------------- schedule B

  /** explodeScheduleB as a value: the loan's fields copied to `loan_<k>`,
      `loan` dropped, then projected. */
  function ExplodeBRow(schema: Schema, item: Row): Result<Row>
  {
    var loan :- Lookup(item, "loan");
    var fields :- AsRecord(loan);
    PickKeys(schema, (item + Prefixed("loan_", fields)) - {"loan"})
  }

  /** Form700_Blocking.explodeScheduleB. */
  method ExplodeScheduleB(schema: Schema, item: Row) returns (r: Result<Row>)
    ensures r == ExplodeBRow(schema, item)
  {
    if "loan" !in item {
      return Err(KeyMissing("loan"));
    }
    if !item["loan"].VRecord? {
      return Err(TypeMismatch);
    }
    var flat := CopyPrefixed("loan_", item["loan"].fields, item);
    flat := flat - {"loan"};
    r := PickKeys(schema, flat);
  }

  /** Exactly one row: `loan_k` holds the loan's field k, every other column
      holds the item's value, and `loan` is dropped. The row is produced
      exactly when the loan is present and a record and every schema column
      other than `loan` is the item's own key or a prefixed key of the loan. */
  lemma ExplodeBSpec(schema: Schema, item: Row)
    ensures ExplodeBRow(schema, item).Ok? <==>
      "loan" in item && item["loan"].VRecord? &&
      forall c :: c in Columns(schema) ==>
        c != "loan" && (c in item || (HasPrefix(c, "loan_") && c[|"loan_"|..] in item["loan"].fields))
    ensures "loan" in item && !item["loan"].VRecord? ==> ExplodeBRow(schema, item).Err?
    ensures ExplodeBRow(schema, item).Ok? ==>
      var row := ExplodeBRow(schema, item).value;
      item["loan"].VRecord? && "loan" !in row && row.Keys == (set c | c in Columns(schema)) &&
      forall c :: c in row ==>
        if HasPrefix(c, "loan_") && c[|"loan_"|..] in item["loan"].fields
        then row[c] == item["loan"].fields[c[|"loan_"|..]]
        else c in item && row[c] == item[c]
  {
    ExplodeBSucceeds(schema, item);
    ExplodeBRowShape(schema, item);
  }

  /** When the loan's row is produced. */
  lemma ExplodeBSucceeds(schema: Schema, item: Row)
    ensures ExplodeBRow(schema, item).Ok? <==>
      "loan" in item && item["loan"].VRecord? &&
      forall c :: c in Columns(schema) ==>
        c != "loan" && (c in item || (HasPrefix(c, "loan_") && c[|"loan_"|..] in item["loan"].fields))
  {
    if "loan" in item && item["loan"].VRecord? {
      var fields := item["loan"].fields;
      var merged := (item + Prefixed("loan_", fields)) - {"loan"};
      PickKeysSpec(schema, merged);
      forall c ensures c in merged <==> c != "loan" && (c in item || (HasPrefix(c, "loan_") && c[|"loan_"|..] in fields)) {
        PrefixedLookup("loan_", fields, c);
      }
    }
  }

  /** What the loan's row holds. */
  lemma ExplodeBRowShape(schema: Schema, item: Row)
    ensures ExplodeBRow(schema, item).Ok? ==>
      var row := ExplodeBRow(schema, item).value;
      item["loan"].VRecord? && "loan" !in row && row.Keys == (set c | c in Columns(schema)) &&
      forall c :: c in row ==>
        if HasPrefix(c, "loan_") && c[|"loan_"|..] in item["loan"].fields
        then row[c] == item["loan"].fields[c[|"loan_"|..]]
        else c in item && row[c] == item[c]
  {
    if ExplodeBRow(schema, item).Ok? {
      var fields := item["loan"].fields;
      var merged := (item + Prefixed("loan_", fields)) - {"loan"};
      PickKeysSpec(schema, merged);
      forall c | c in merged {
        PrefixedLookup("loan_", fields, c);
      }
    }
  }

  // ---------------------------------------------------------------- schedule D

  /** The fields a gift contributes to its row. */
  const GIFT_FIELDS: seq<string> := ["amount", "description", "giftDate"]

  /** The named fields of `source` copied onto the row, in order; a missing one halts. */
  function CopyFields(keys: seq<string>, source: Value, row: Row): Result<Row>
  {
    if keys == [] then Ok(row)
    else
      var v :- Field(source, keys[0]);
      CopyFields(keys[1..], source, row[keys[0] := v])
  }

  method CopyGiftFields(keys: seq<string>, gift: Value, row: Row) returns (r: Result<Row>)
    ensures r == CopyFields(keys, gift, row)
  {
    var cur := row;
    var j := 0;
    while j < |keys|
      invariant 0 <= j <= |keys|
      invariant CopyFields(keys, gift, row) == CopyFields(keys[j..], gift, cur)
    {
      assert keys[j..][1..] == keys[j + 1..];
      var v := Field(gift, keys[j]);
      if v.Err? {
        return Err(v.halt);
      }
      cur := cur[keys[j] := v.value];
      j := j + 1;
    }
    return Ok(cur);
  }

  /** The row for one gift, before projection. */
  function GiftRow(item: Row, gift: Value): Result<Row>
  {
    var row :- CopyFields(GIFT_FIELDS, gift, item);
    Ok(row - {"gifts"})
  }

  function GiftRowPicked(schema: Schema, item: Row, gift: Value): Result<Row>
  {
    var row :- GiftRow(item, gift);
    PickKeys(schema, row)
  }

  function GiftRowOf(schema: Schema, item: Row): Value -> Result<Row>
  {
    g => GiftRowPicked(schema, item, g)
  }

  /** explodeScheduleD as a value: one row per gift, in order. */
  function ExplodeDRows(schema: Schema, item: Row): Result<seq<Row>>
  {
    var listed :- Lookup(item, "gifts");
    var gifts :- Iterate(listed);
    MapAll(gifts, GiftRowOf(schema, item))
  }

  /** Form700_Blocking.explodeScheduleD. */
  method ExplodeScheduleD(schema: Schema, item: Row) returns (r: Result<seq<Row>>)
    ensures r == ExplodeDRows(schema, item)
  {
    if "gifts" !in item {
      return Err(KeyMissing("gifts"));
    }
    var listed := Iterate(item["gifts"]);
    if listed.Err? {
      return Err(listed.halt);
    }
    r := ExplodeGifts(schema, item, listed.value);
  }

  /** The loop of explodeScheduleD over the gift list. */
  method ExplodeGifts(schema: Schema, item: Row, gifts: seq<Value>) returns (r: Result<seq<Row>>)
    ensures r == MapAll(gifts, GiftRowOf(schema, item))
  {
    var res: seq<Row> := [];
    var i := 0;
    assert gifts[0..] == gifts;
    PrependNothing(MapAll(gifts, GiftRowOf(schema, item)), res);
    while i < |gifts|
      invariant 0 <= i <= |gifts|
      invariant MapAll(gifts, GiftRowOf(schema, item)) == Prepend(res, MapAll(gifts[i..], GiftRowOf(schema, item)))
    {
      assert gifts[i..][0] == gifts[i];
      assert gifts[i..][1..] == gifts[i + 1..];
      var copied := CopyGiftFields(GIFT_FIELDS, gifts[i], item);
      if copied.Err? {
        return Err(copied.halt);
      }
      var newItem := copied.value - {"gifts"};
      var picked := PickKeys(schema, newItem);
      if picked.Err? {
        return Err(picked.halt);
      }
      MapAllStep(gifts, i, GiftRowOf(schema, item), res);
      res := res + [picked.value];
      i := i + 1;
    }
    assert gifts[i..] == [];
    PrependNothing(MapAll(gifts[i..], GiftRowOf(schema, item)), res);
    return Ok(res);
  }

  lemma CopyGiftFieldsSpec(gift: Value, row: Row)
    ensures CopyFields(GIFT_FIELDS, gift, row).Ok? <==>
      gift.VRecord? && forall k :: k in GIFT_FIELDS ==> k in gift.fields
    ensures CopyFields(GIFT_FIELDS, gift, row).Ok? ==>
      CopyFields(GIFT_FIELDS, gift, row).value ==
        row["amount" := gift.fields["amount"]]["description" := gift.fields["description"]]["giftDate" := gift.fields["giftDate"]]
  {
    assert GIFT_FIELDS[0] == "amount" && GIFT_FIELDS[1..] == ["description", "giftDate"];
    var rest1: seq<string> := ["description", "giftDate"];
    var rest2: seq<string> := ["giftDate"];
    assert rest1[0] == "description" && rest1[1..] == rest2;
    assert rest2[0] == "giftDate" && rest2[1..] == [];
    if gift.VRecord? && "amount" in gift.fields {
      var r1 := row["amount" := gift.fields["amount"]];
      assert CopyFields(GIFT_FIELDS, gift, row) == CopyFields(rest1, gift, r1);
      if "description" in gift.fields {
        var r2 := r1["description" := gift.fields["description"]];
        assert CopyFields(rest1, gift, r1) == CopyFields(rest2, gift, r2);
        if "giftDate" in gift.fields {
          var r3 := r2["giftDate" := gift.fields["giftDate"]];
          assert CopyFields(rest2, gift, r2) == CopyFields([], gift, r3);
        }
      }
    }
  }

  /** One row per gift, in order, and none for an empty list; row i takes
      amount, description and giftDate from gift i, over the item's own values,
      and the item's value in every other column; `gifts` is dropped. The rows
      are produced exactly when every gift is a record with those three fields
      and, if there is a gift, every schema column other than `gifts` is one of
      them or the item's own key. */
  lemma ExplodeDSpec(schema: Schema, item: Row, gifts: seq<Value>)
    requires "gifts" in item && Iterate(item["gifts"]) == Ok(gifts)
    ensures ExplodeDRows(schema, item).Ok? <==>
      forall i :: 0 <= i < |gifts| ==>
        gifts[i].VRecord? && (forall k :: k in GIFT_FIELDS ==> k in gifts[i].fields) &&
        forall c :: c in Columns(schema) ==> c != "gifts" && (c in item || c in GIFT_FIELDS)
    ensures gifts == [] ==> ExplodeDRows(schema, item) == Ok([])
    ensures ExplodeDRows(schema, item).Ok? ==>
      var rows := ExplodeDRows(schema, item).value;
      |rows| == |gifts| &&
      forall i :: 0 <= i < |gifts| ==>
        gifts[i].VRecord? && "gifts" !in rows[i] &&
        rows[i].Keys == (set c | c in Columns(schema)) &&
        forall c :: c in rows[i] ==>
          if c in GIFT_FIELDS then c in gifts[i].fields && rows[i][c] == gifts[i].fields[c] else c in item && rows[i][c] == item[c]
    ensures (exists i :: 0 <= i < |gifts| &&
               !(gifts[i].VRecord? && forall k :: k in GIFT_FIELDS ==> k in gifts[i].fields)) ==>
      ExplodeDRows(schema, item).Err?
  {
    ExplodeDSucceeds(schema, item, gifts);
    ExplodeDRowsShape(schema, item, gifts);
  }

  /** When the rows for the gift list are produced. */
  lemma ExplodeDSucceeds(schema: Schema, item: Row, gifts: seq<Value>)
    requires "gifts" in item && Iterate(item["gifts"]) == Ok(gifts)
    ensures ExplodeDRows(schema, item).Ok? <==>
      forall i :: 0 <= i < |gifts| ==>
        gifts[i].VRecord? && (forall k :: k in GIFT_FIELDS ==> k in gifts[i].fields) &&
        forall c :: c in Columns(schema) ==> c != "gifts" && (c in item || c in GIFT_FIELDS)
  {
    var f := GiftRowOf(schema, item);
    MapAllOk(gifts, f);
    forall i | 0 <= i < |gifts|
      ensures f(gifts[i]).Ok? <==>
        gifts[i].VRecord? && (forall k :: k in GIFT_FIELDS ==> k in gifts[i].fields) &&
        forall c :: c in Columns(schema) ==> c != "gifts" && (c in item || c in GIFT_FIELDS)
    {
      GiftRowSucceeds(schema, item, gifts[i]);
    }
  }

  /** When one gift's row is produced. */
  lemma GiftRowSucceeds(schema: Schema, item: Row, gift: Value)
    ensures GiftRowPicked(schema, item, gift).Ok? <==>
      gift.VRecord? && (forall k :: k in GIFT_FIELDS ==> k in gift.fields) &&
      forall c :: c in Columns(schema) ==> c != "gifts" && (c in item || c in GIFT_FIELDS)
  {
    CopyGiftFieldsSpec(gift, item);
    if CopyFields(GIFT_FIELDS, gift, item).Ok? {
      var merged := CopyFields(GIFT_FIELDS, gift, item).value - {"gifts"};
      PickKeysSpec(schema, merged);
    }
  }

  /** What the rows for the gift list hold. */
  lemma ExplodeDRowsShape(schema: Schema, item: Row, gifts: seq<Value>)
    requires "gifts" in item && Iterate(item["gifts"]) == Ok(gifts)
    ensures gifts == [] ==> ExplodeDRows(schema, item) == Ok([])
    ensures ExplodeDRows(schema, item).Ok? ==>
      var rows := ExplodeDRows(schema, item).value;
      |rows| == |gifts| &&
      forall i :: 0 <= i < |gifts| ==>
        gifts[i].VRecord? && "gifts" !in rows[i] &&
        rows[i].Keys == (set c | c in Columns(schema)) &&
        forall c :: c in rows[i] ==>
          if c in GIFT_FIELDS then c in gifts[i].fields && rows[i][c] == gifts[i].fields[c] else c in item && rows[i][c] == item[c]
    ensures (exists i :: 0 <= i < |gifts| &&
               !(gifts[i].VRecord? && forall k :: k in GIFT_FIELDS ==> k in gifts[i].fields)) ==>
      ExplodeDRows(schema, item).Err?
  {
    var f := GiftRowOf(schema, item);
    MapAllOk(gifts, f);
    if ExplodeDRows(schema, item).Ok? {
      var rows := ExplodeDRows(schema, item).value;
      forall i | 0 <= i < |gifts|
        ensures gifts[i].VRecord? && "gifts" !in rows[i]
        ensures rows[i].Keys == (set c | c in Columns(schema))
        ensures forall c :: c in rows[i] ==>
          if c in GIFT_FIELDS then c in gifts[i].fields && rows[i][c] == gifts[i].fields[c] else c in item && rows[i][c] == item[c]
      {
        assert f(gifts[i]).Ok?;
        CopyGiftFieldsSpec(gifts[i], item);
        var merged := CopyFields(GIFT_FIELDS, gifts[i], item).value - {"gifts"};
        PickKeysSpec(schema, merged);
      }
    }
    if exists i :: 0 <= i < |gifts| && !(gifts[i].VRecord? && forall k :: k in GIFT_FIELDS ==> k in gifts[i].fields) {
      var i :| 0 <= i < |gifts| && !(gifts[i].VRecord? && forall k :: k in GIFT_FIELDS ==> k in gifts[i].fields);
      CopyGiftFieldsSpec(gifts[i], item);
      assert f(gifts[i]).Err?;
    }
  }
}
