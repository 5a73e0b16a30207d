/**
 * Filter-key parsing and fragment rendering of src/index.js:
 * `splitColumnAndCondition`, the cast check and `processFilter`.
 */
module Filters {
  import opened Wrappers
  import opened JsStrings
  import opened Operators
  import opened Identifiers

  /** The two errors `processFilter` throws. */
  datatype Error =
    | InvalidFilter(key: string)        // no catalogue token is a suffix of the key
    | InvalidCast(cast: Option<string>) // the cast function answered outside `dbTypes`; None stands for `undefined`

  /**
   * A cast function maps a column to the type to cast it to; `None` stands
   * for any answer that is not a string (`undefined` in the library's tests).
   */
  type CastFn = string -> Option<string>

  /** The parsed form of a filter key. */
  datatype ColumnAndCondition = ColumnAndCondition(column: string, condition: Operator)

  /**
   * The position `ops.find(op => key.endsWith(op))` stops at: the first
   * operator of `ops` whose token ends `key`, or `|ops|` when there is none.
   */
  function FirstSuffixIndex(ops: seq<Operator>, key: string): (r: nat)
    ensures r <= |ops|
    ensures r < |ops| ==> EndsWith(key, ops[r].Token())
    ensures forall j :: 0 <= j < r ==> !EndsWith(key, ops[j].Token())
  {
    if ops == [] then 0
    else if EndsWith(key, ops[0].Token()) then 0
    else 1 + FirstSuffixIndex(ops[1..], key)
  }

  /**
   * `filterArray.find(filter => key.endsWith(filter))`: the first operator in
   * catalogue order whose token ends the key, or none when no token does.
   */
  function FindOperator(key: string): (r: Option<Operator>)
    ensures r.None? ==> forall j :: 0 <= j < |FilterArray| ==> !EndsWith(key, FilterArray[j].Token())
    ensures r.Some? ==> EndsWith(key, r.value.Token())
  {
    var i := FirstSuffixIndex(FilterArray, key);
    if i < |FilterArray| then Some(FilterArray[i]) else None
  }

  /** The operator selected is the catalogue entry at the first position whose token ends the key. */
  lemma FindOperatorAt(key: string, i: nat)
    requires i < |FilterArray| && EndsWith(key, FilterArray[i].Token())
    requires forall j :: 0 <= j < i ==> !EndsWith(key, FilterArray[j].Token())
    ensures FindOperator(key) == Some(FilterArray[i])
  {
    var r := FirstSuffixIndex(FilterArray, key);
    assert r <= i;
  }

  /**
   * `splitColumnAndCondition`: select the operator, then cut the column out
   * as `key.substring(0, key.indexOf(token) - 1)` -- the position of the
   * token's FIRST occurrence, not of the suffix that selected it.
   */
  function SplitColumnAndCondition(key: string): (r: Result<ColumnAndCondition, Error>)
    ensures r.Err? <==> FindOperator(key).None?
    ensures r.Err? ==> r.error == InvalidFilter(key)
    ensures r.Ok? ==> r.value.condition == FindOperator(key).value
    ensures r.Ok? ==> r.value.column <= key
    ensures r.Ok? ==> var at := IndexOf(key, r.value.condition.Token());
                      0 <= at <= |key| - |r.value.condition.Token()| &&
                      |r.value.column| == if at == 0 then 0 else at - 1
  {
    match FindOperator(key)
    case None => Err(InvalidFilter(key))
    case Some(op) =>
      IndexOfSuffix(key, op.Token());
      Ok(ColumnAndCondition(Substring(key, 0, IndexOf(key, op.Token()) - 1), op))
  }

  /**
   * `dbTypes.includes(cast)`: the answer is a string on the allow-list, so it
   * is made of identifier characters and may be spliced into SQL text.
   */
  predicate IsDbType(cast: Option<string>)
    ensures IsDbType(cast) ==> cast.Some? && IsClean(cast.value) && |cast.value| <= 10
  {
    if cast.Some? && cast.value in DbTypes then DbTypesAreClean(cast.value); true else false
  }

  /**
   * The cast step of `processFilter`: without a cast function the expression
   * is used as it is; otherwise the answer must be in `dbTypes`, the empty
   * string leaves the expression alone, and any other type wraps it as
   * `(expr)::type`.
   */
  function ApplyCast(expr: string, column: string, castFn: Option<CastFn>): (r: Result<string, Error>)
    ensures r.Err? <==> castFn.Some? && !IsDbType(castFn.value(column))
    ensures r.Err? ==> r.error == InvalidCast(castFn.value(column))
    ensures r.Ok? ==> (r.value == expr <==> castFn.None? || castFn.value(column) == Some(""))
    ensures r.Ok? && r.value != expr ==>
              var t := castFn.value(column).value;
              t in DbTypes && t != "" && r.value == "(" + expr + ")::" + t
  {
    match castFn
    case None => Ok(expr)
    case Some(f) =>
      var cast := f(column);
      if !IsDbType(cast) then Err(InvalidCast(cast))
      else if cast.value != "" then Ok("(" + expr + ")::" + cast.value)
      else Ok(expr)
  }

  /**
   * `processFilter`: parse the key, render and cast the column expression and
   * append the operator's template after a space.
   */
  function ProcessFilter(key: string, castFn: Option<CastFn>, pre: Preprocessor): (r: Result<string, Error>)
    ensures SplitColumnAndCondition(key).Err? ==> r == Err(InvalidFilter(key))
    ensures r.Ok? ==> SplitColumnAndCondition(key).Ok?
    ensures r.Ok? ==> EndsWith(r.value, " " + SplitColumnAndCondition(key).value.condition.Template())
  {
    match SplitColumnAndCondition(key)
    case Err(e) => Err(e)
    case Ok(split) =>
      var preprocessed := Preprocess(pre, split.column);
      match ApplyCast(preprocessed, split.column, castFn)
      case Err(e) => Err(e)
      case Ok(query) =>
        var tail := " " + split.condition.Template();
        assert (query + tail)[|query + tail| - |tail|..] == tail;
        Ok(query + tail)
  }

  /**
   * For a key that parses, rendering fails exactly when the cast check fails,
   * and otherwise the fragment is the column expression (wrapped in a cast
   * when the cast function names a non-empty type), a space and the
   * operator's template.
   */
  lemma ProcessFilterShape(key: string, castFn: Option<CastFn>, pre: Preprocessor, column: string, op: Operator)
    requires SplitColumnAndCondition(key) == Ok(ColumnAndCondition(column, op))
    ensures ProcessFilter(key, castFn, pre).Err? <==> castFn.Some? && !IsDbType(castFn.value(column))
    ensures ProcessFilter(key, castFn, pre).Err? ==>
              ProcessFilter(key, castFn, pre).error == InvalidCast(castFn.value(column))
    ensures ProcessFilter(key, castFn, pre).Ok? && (castFn.None? || castFn.value(column) == Some("")) ==>
              ProcessFilter(key, castFn, pre).value == Preprocess(pre, column) + (" " + op.Template())
    ensures ProcessFilter(key, castFn, pre).Ok? && castFn.Some? && castFn.value(column) != Some("") ==>
              ProcessFilter(key, castFn, pre).value ==
                "(" + Preprocess(pre, column) + ")::" + castFn.value(column).value + (" " + op.Template())
  {
    var cast := ApplyCast(Preprocess(pre, column), column, castFn);
    assert ProcessFilter(key, castFn, pre) ==
      if cast.Err? then Err(cast.error) else Ok(cast.value + (" " + op.Template()));
  }

  /** Two suffixes of one string: the shorter is a suffix of the longer. */
  lemma SuffixOfSuffix(key: string, long: string, short: string)
    requires EndsWith(key, long) && EndsWith(key, short) && |short| <= |long|
    ensures EndsWith(long, short)
  {
    assert long[|long| - |short|..] == key[|key| - |short|..];
  }

  /**
   * The operator chosen for a key is the most specific one: every catalogue
   * token the key ends with is a suffix of the chosen token.
   */
  lemma ChosenOperatorIsMostSpecific(key: string, other: Operator)
    requires EndsWith(key, other.Token())
    ensures FindOperator(key).Some?
    ensures EndsWith(FindOperator(key).value.Token(), other.Token())
  {
    var i := Position(other);
    var k := FirstSuffixIndex(FilterArray, key);
    assert k <= i;
    var chosen := FilterArray[k];
    assert FindOperator(key) == Some(chosen);
    if |chosen.Token()| < |other.Token()| {
      SuffixOfSuffix(key, other.Token(), chosen.Token());
      TokenSuffixPairs(chosen, other);
      assert false;
    }
    SuffixOfSuffix(key, chosen.Token(), other.Token());
  }

  /** A key ending in `not_in` selects `not_in`, never the shorter `in`. */
  lemma NotInWinsOverIn(key: string)
    requires EndsWith(key, "not_in")
    ensures FindOperator(key) == Some(NotIn)
  {
    ChosenOperatorIsMostSpecific(key, NotIn);
    TokenSuffixPairs(NotIn, FindOperator(key).value);
  }

  /** A key ending in no catalogue token is rejected, naming the key. */
  lemma UnrecognisedSuffixIsRejected(key: string, castFn: Option<CastFn>, pre: Preprocessor)
    requires forall op: Operator :: !EndsWith(key, op.Token())
    ensures SplitColumnAndCondition(key) == Err(InvalidFilter(key))
    ensures ProcessFilter(key, castFn, pre) == Err(InvalidFilter(key))
  {
    assert forall i :: 0 <= i < |FilterArray| ==> !EndsWith(key, FilterArray[i].Token());
  }

  /**
   * The column is the key with its operator token and the one character
   * before it removed exactly when the token's first occurrence is the
   * trailing one that selected it (or the key is at most one character
   * longer than the token, when both are empty).
   */
  lemma ColumnIsEndAnchoredStripIff(key: string, column: string, op: Operator)
    requires SplitColumnAndCondition(key) == Ok(ColumnAndCondition(column, op))
    ensures var stripped := if |key| - |op.Token()| <= 1 then [] else key[..|key| - |op.Token()| - 1];
            column == stripped <==>
              (IndexOf(key, op.Token()) == |key| - |op.Token()| || |key| - |op.Token()| <= 1)
  {
    var at := IndexOf(key, op.Token());
    var n := |key| - |op.Token()|;
    var stripped := if n <= 1 then [] else key[..n - 1];
    assert column == key[..|column|];
    if column == stripped && n > 1 {
      assert |column| == n - 1;
    }
  }

  /**
   * When the selected token occurs only at the end of the key, the column is
   * the key without the token and the one separator character before it.
   */
  lemma SplitAtTrailingToken(key: string, op: Operator)
    requires FindOperator(key) == Some(op) && |key| > |op.Token()|
    requires IndexOf(key, op.Token()) == |key| - |op.Token()|
    ensures SplitColumnAndCondition(key) == Ok(ColumnAndCondition(key[..|key| - |op.Token()| - 1], op))
  {
    ColumnIsEndAnchoredStripIff(key, SplitColumnAndCondition(key).value.column, op);
  }

  /**
   * The first-occurrence search mis-splits a column whose name contains the
   * operator token: `frequency_eq` filters on column `f`, not `frequency`.
   */
  lemma FirstOccurrenceMisSplit()
    ensures SplitColumnAndCondition("frequency_eq") == Ok(ColumnAndCondition("f", Eq))
  {
    assert FindOperator("frequency_eq") == Some(Eq);
    IndexOfFromScan("frequency_eq", "eq", 0, 2);
    assert Substring("frequency_eq", 0, 1) == "f";
  }

  /** No allowed cast type can smuggle a placeholder or a quote into the fragment. */
  lemma DbTypesAreClean(t: string)
    requires t in DbTypes
    ensures IsClean(t)
  {
    forall i | 0 <= i < |t|
      ensures IsIdentChar(t[i])
    {
    }
  }

  /** Wrapping an expression in a cast to a clean type adds no placeholder and no quote. */
  lemma {:induction false} CastWrapCount(expr: string, t: string, ch: char)
    requires IsClean(t) && (ch == '?' || ch == '"' || ch == '\'')
    ensures Count("(" + expr + ")::" + t, ch) == Count(expr, ch)
  {
    CleanHasNoSpecials(t);
    CountConcat("(" + expr + ")::", t, ch);
    CountConcat("(" + expr, ")::", ch);
    CountConcat("(", expr, ch);
  }

  /** The placeholders and quotes of a fragment are those of its expression and its template. */
  lemma {:induction false} FragmentCount(expr: string, template: string, ch: char)
    requires ch == '?' || ch == '"' || ch == '\''
    ensures Count(expr + (" " + template), ch) == Count(expr, ch) + Count(template, ch)
  {
    CountConcat(expr, " " + template, ch);
    CountConcat(" ", template, ch);
  }

  /**
   * With either built-in preprocessor every rendered fragment holds exactly
   * one `?`, so it binds exactly the one value `knexFlexFilter` supplies, and
   * its only quotes are the two that delimit the identifier.
   */
  lemma FragmentHasOnePlaceholder(key: string, castFn: Option<CastFn>, pre: Preprocessor)
    requires IsBuiltIn(pre)
    requires ProcessFilter(key, castFn, pre).Ok?
    ensures Count(ProcessFilter(key, castFn, pre).value, '?') == 1
    ensures Count(ProcessFilter(key, castFn, pre).value, '"') == (if pre.Default? then 2 else 0)
    ensures Count(ProcessFilter(key, castFn, pre).value, '\'') == (if pre.Jsonb? then 2 else 0)
  {
    var split := SplitColumnAndCondition(key).value;
    var column, op := split.column, split.condition;
    ProcessFilterShape(key, castFn, pre, column, op);
    BuiltInPreprocessorIsInert(pre, column);
    TemplateHasOnePlaceholder(op);
    var expr := Preprocess(pre, column);
    var query := expr;
    if castFn.Some? && castFn.value(column) != Some("") {
      var t := castFn.value(column).value;
      DbTypesAreClean(t);
      query := "(" + expr + ")::" + t;
      CastWrapCount(expr, t, '?');
      CastWrapCount(expr, t, '"');
      CastWrapCount(expr, t, '\'');
    }
    assert ProcessFilter(key, castFn, pre).value == query + (" " + op.Template());
    FragmentCount(query, op.Template(), '?');
    FragmentCount(query, op.Template(), '"');
    FragmentCount(query, op.Template(), '\'');
  }
}
