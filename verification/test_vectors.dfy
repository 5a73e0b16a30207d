/**
 * The SQL text and bindings asserted by tests/knex-flex-filter.test.js,
 * derived from the model: how each test key splits into column and operator,
 * the fragment it renders under the tests' cast function (plain and JSONB
 * columns), the rejection of a column the cast function does not know, and
 * the statements a run over several keys leaves on a fresh builder.
 */
module TestVectors {
  import opened Wrappers
  import opened JsStrings
  import opened Operators
  import opened Identifiers
  import opened Filters
  import opened FlexFilter

  /** The tests' cast function: `bigint` for the two numeric columns, `undefined` otherwise. */
  function TestCastFn(column: string): Option<string> {
    if column == "ownerId" || column == "lastBuyBlockNumber" then Some("bigint") else None
  }

  // How the tests' keys split.

  lemma SplitOwnerIdEq(key: string)
    requires key == "ownerId_eq"
    ensures SplitColumnAndCondition(key) == Ok(ColumnAndCondition("ownerId", Eq))
  {
    FindOperatorAt(key, 0);
    IndexOfFromScan(key, "eq", 0, 8);
    SplitAtTrailingToken(key, Eq);
    assert key[..7] == "ownerId";
  }

  lemma SplitOwnerIdGt(key: string)
    requires key == "ownerId_gt"
    ensures SplitColumnAndCondition(key) == Ok(ColumnAndCondition("ownerId", Gt))
  {
    assert key[8..][0] == 'g';
    FindOperatorAt(key, 1);
    IndexOfFromScan(key, "gt", 0, 8);
    SplitAtTrailingToken(key, Gt);
    assert key[..7] == "ownerId";
  }

  /** `ownerId_not_in` filters `ownerId` with `not_in`, not `ownerId_not` with `in`. */
  lemma SplitOwnerIdNotIn(key: string)
    requires key == "ownerId_not_in"
    ensures SplitColumnAndCondition(key) == Ok(ColumnAndCondition("ownerId", NotIn))
  {
    NotInWinsOverIn(key);
    IndexOfFromScan(key, "not_in", 0, 8);
    SplitAtTrailingToken(key, NotIn);
    assert key[..7] == "ownerId";
  }

  lemma SplitLastBuyBlockNumberGt(key: string)
    requires key == "lastBuyBlockNumber_gt"
    ensures SplitColumnAndCondition(key) == Ok(ColumnAndCondition("lastBuyBlockNumber", Gt))
  {
    assert key[19..][0] == 'g';
    FindOperatorAt(key, 1);
    forall j | 0 <= j < 19
      ensures key[j] != 'g'
    {
    }
    IndexOfFromScan(key, "gt", 0, 19);
    SplitAtTrailingToken(key, Gt);
    assert key[..18] == "lastBuyBlockNumber";
  }

  lemma SplitNameEq(key: string)
    requires key == "name_eq"
    ensures SplitColumnAndCondition(key) == Ok(ColumnAndCondition("name", Eq))
  {
    FindOperatorAt(key, 0);
    IndexOfFromScan(key, "eq", 0, 5);
    SplitAtTrailingToken(key, Eq);
    assert key[..4] == "name";
  }

  /** `bigint` is on the cast allow-list. */
  lemma BigintIsDbType()
    ensures IsDbType(Some("bigint"))
  {
    assert DbTypes[1] == "bigint";
  }

  // What the preprocessors render for the tests' columns.

  lemma LastBuyBlockNumberIsClean(column: string)
    requires column == "lastBuyBlockNumber"
    ensures Sanitize(column) == column
  {
    assert IsClean(column) by {
      forall i | 0 <= i < |column|
        ensures IsIdentChar(column[i])
      {
      }
    }
    SanitizeFixesClean(column);
  }

  lemma DataIsClean(column: string)
    requires column == "data"
    ensures Sanitize(column) == column
  {
    SanitizeFixesClean(column);
  }

  lemma QuotedOwnerId(column: string)
    requires column == "ownerId"
    ensures Preprocess(Default, column) == "\"ownerId\""
  {
    SanitizeFixesClean(column);
  }

  lemma JsonbLastBuyBlockNumber(jsonbColumn: string, column: string)
    requires jsonbColumn == "data" && column == "lastBuyBlockNumber"
    ensures Preprocess(Jsonb(jsonbColumn), column) == "data" + "->>'" + "lastBuyBlockNumber" + "'"
  {
    LastBuyBlockNumberIsClean(column);
    DataIsClean(jsonbColumn);
  }

  // How the rendered pieces spell out.

  lemma SpellOwnerIdEq()
    ensures "(" + "\"ownerId\"" + ")::" + "bigint" + (" " + Eq.Template()) == "(\"ownerId\")::bigint = ?"
  {
  }

  lemma SpellOwnerIdGt()
    ensures "(" + "\"ownerId\"" + ")::" + "bigint" + (" " + Gt.Template()) == "(\"ownerId\")::bigint > ?"
  {
  }

  lemma SpellOwnerIdNotIn()
    ensures "(" + "\"ownerId\"" + ")::" + "bigint" + (" " + NotIn.Template()) == "(\"ownerId\")::bigint <> ANY(?)"
  {
  }

  lemma SpellLastBuyBlockNumberGt()
    ensures "(" + ("data" + "->>'" + "lastBuyBlockNumber" + "'") + ")::" + "bigint" + (" " + Gt.Template())
         == "(data->>'lastBuyBlockNumber')::bigint > ?"
  {
  }

  // The asserted fragments.

  /** A key that splits, under a cast function naming an allow-listed type, renders the cast form. */
  lemma CastFragment(key: string, castFn: CastFn, pre: Preprocessor, column: string, op: Operator,
                     expr: string, t: string)
    requires SplitColumnAndCondition(key) == Ok(ColumnAndCondition(column, op))
    requires Preprocess(pre, column) == expr
    requires castFn(column) == Some(t) && t != "" && IsDbType(Some(t))
    ensures ProcessFilter(key, Some(castFn), pre) == Ok("(" + expr + ")::" + t + (" " + op.Template()))
  {
    ProcessFilterShape(key, Some(castFn), pre, column, op);
  }

  /** `{ ownerId_eq: 1 }` with the cast function renders `("ownerId")::bigint = ?`. */
  lemma OwnerIdEq(key: string, sql: string)
    requires key == "ownerId_eq" && sql == "(\"ownerId\")::bigint = ?"
    ensures ProcessFilter(key, Some(TestCastFn), Default) == Ok(sql)
  {
    var column := "ownerId";
    SplitOwnerIdEq(key);
    QuotedOwnerId(column);
    BigintIsDbType();
    CastFragment(key, TestCastFn, Default, column, Eq, "\"ownerId\"", "bigint");
    SpellOwnerIdEq();
  }

  /** `{ ownerId_gt: 0 }` with the cast function renders `("ownerId")::bigint > ?`. */
  lemma OwnerIdGt(key: string, sql: string)
    requires key == "ownerId_gt" && sql == "(\"ownerId\")::bigint > ?"
    ensures ProcessFilter(key, Some(TestCastFn), Default) == Ok(sql)
  {
    var column := "ownerId";
    SplitOwnerIdGt(key);
    QuotedOwnerId(column);
    BigintIsDbType();
    CastFragment(key, TestCastFn, Default, column, Gt, "\"ownerId\"", "bigint");
    SpellOwnerIdGt();
  }

  /** `{ ownerId_not_in: [2, 3] }` with the cast function renders `("ownerId")::bigint <> ANY(?)`. */
  lemma OwnerIdNotIn(key: string, sql: string)
    requires key == "ownerId_not_in" && sql == "(\"ownerId\")::bigint <> ANY(?)"
    ensures ProcessFilter(key, Some(TestCastFn), Default) == Ok(sql)
  {
    var column := "ownerId";
    SplitOwnerIdNotIn(key);
    QuotedOwnerId(column);
    BigintIsDbType();
    CastFragment(key, TestCastFn, Default, column, NotIn, "\"ownerId\"", "bigint");
    SpellOwnerIdNotIn();
  }

  /** With `jsonbPreprocessor('data')`, `lastBuyBlockNumber_gt` renders `(data->>'lastBuyBlockNumber')::bigint > ?`. */
  lemma JsonbLastBuyBlockNumberGt(key: string, jsonbColumn: string, sql: string)
    requires key == "lastBuyBlockNumber_gt" && jsonbColumn == "data"
    requires sql == "(data->>'lastBuyBlockNumber')::bigint > ?"
    ensures ProcessFilter(key, Some(TestCastFn), Jsonb(jsonbColumn)) == Ok(sql)
  {
    var column := "lastBuyBlockNumber";
    SplitLastBuyBlockNumberGt(key);
    JsonbLastBuyBlockNumber(jsonbColumn, column);
    BigintIsDbType();
    CastFragment(key, TestCastFn, Jsonb(jsonbColumn), column, Gt,
                 "data" + "->>'" + "lastBuyBlockNumber" + "'", "bigint");
    SpellLastBuyBlockNumberGt();
  }

  /** A column the cast function answers `undefined` for is rejected. */
  lemma UncastColumnIsRejected(key: string)
    requires key == "name_eq"
    ensures ProcessFilter(key, Some(TestCastFn), Default) == Err(InvalidCast(None))
  {
    var column := "name";
    SplitNameEq(key);
    BigintIsDbType();
    ProcessFilterShape(key, Some(TestCastFn), Default, column, Eq);
  }

  /**
   * `{ ownerId_not_in: [1], ownerId_gt: 2 }` appends two statements in key
   * order, the array value bound as one binding.
   */
  lemma MultipleFilters(filter: seq<(string, Value)>, opts: Options, statements: seq<Statement>)
    requires filter == [("ownerId_not_in", List([Number(1)])), ("ownerId_gt", Number(2))]
    requires opts == Options(Some(TestCastFn), None)
    requires statements == [Raw("(\"ownerId\")::bigint <> ANY(?)", [List([Number(1)])]),
                            Raw("(\"ownerId\")::bigint > ?", [Number(2)])]
    ensures Compile(filter, opts.Render()) == Outcome(statements, None)
  {
    OwnerIdNotIn(filter[0].0, statements[0].sql);
    OwnerIdGt(filter[1].0, statements[1].sql);
    CompilePair(filter[0], filter[1], opts.Render());
    assert filter == [filter[0], filter[1]];
  }

  /** Two keys that both render append their two statements, in order. */
  lemma CompilePair(a: (string, Value), b: (string, Value), render: Renderer)
    requires render(a.0).Ok? && render(b.0).Ok?
    ensures Compile([a, b], render) == Outcome([Raw(render(a.0).value, [a.1]), Raw(render(b.0).value, [b.1])], None)
  {
    var filter := [a, b];
    assert filter[..0] == [];
    CompileStep(filter, 0, render);
    CompileStep(filter, 1, render);
    assert filter[..2] == filter;
  }

  /** A client of the builder: what the multiple-filter test observes in `_statements`. */
  method MultipleFiltersOnBuilder() returns (qb: QueryBuilder)
    ensures qb.table == "entities"
    ensures qb.statements == [Raw("(\"ownerId\")::bigint <> ANY(?)", [List([Number(1)])]),
                              Raw("(\"ownerId\")::bigint > ?", [Number(2)])]
  {
    qb := new QueryBuilder("entities");
    var filter := [("ownerId_not_in", List([Number(1)])), ("ownerId_gt", Number(2))];
    var opts := Options(Some(TestCastFn), None);
    var expected := [Raw("(\"ownerId\")::bigint <> ANY(?)", [List([Number(1)])]),
                     Raw("(\"ownerId\")::bigint > ?", [Number(2)])];
    MultipleFilters(filter, opts, expected);
    var result := KnexFlexFilter(qb, filter, opts);
    assert result == Ok(qb);
  }

  /** An empty filter leaves the builder as it was. */
  method EmptyFilterOnBuilder() returns (qb: QueryBuilder)
    ensures qb.statements == []
  {
    qb := new QueryBuilder("entities");
    var result := KnexFlexFilter(qb, [], NoOptions);
    assert result == Ok(qb);
  }
}
