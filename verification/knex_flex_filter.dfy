/**
 * `knexFlexFilter` of src/index.js: walk the filter's keys in order and append
 * one raw predicate per key, binding the key's value, to the caller's query
 * builder.
 */
module FlexFilter {
  import opened Wrappers
  import opened Identifiers
  import opened Filters

  /** A value bound to a placeholder; arrays stay one value (bound as `[[1, 2]]`). */
  datatype Value = Number(n: int) | Text(s: string) | Bool(b: bool) | Null | List(items: seq<Value>)

  /** One `whereRaw` call recorded by the builder: SQL text and its bindings. */
  datatype Statement = Raw(sql: string, bindings: seq<Value>)

  /** The `opts` argument; a missing preprocessor means `defaultPreprocessor()`. */
  datatype Options = Options(castFn: Option<CastFn>, preprocessor: Option<Preprocessor>)
  {
    /** `preprocessor = defaultPreprocessor()`: the given preprocessor, or the default when none is given. */
    function Pre(): (r: Preprocessor)
      ensures preprocessor.Some? ==> r == preprocessor.value
      ensures preprocessor.None? ==> r == Default
    {
      if preprocessor.Some? then preprocessor.value else Default
    }

    /** `key => processFilter(key, castFn, preprocessor)` */
    function Render(): Renderer {
      key => ProcessFilter(key, castFn, Pre())
    }
  }

  /** `{}`: no cast function and the default preprocessor. */
  const NoOptions := Options(None, None)

  /**
   * The query builder the filter is applied to, reduced to the part the
   * library touches: the list of statements `whereRaw` appends to.
   */
  class QueryBuilder {
    const table: string
    var statements: seq<Statement>

    constructor (table: string)
      ensures this.table == table && statements == []
    {
      this.table := table;
      statements := [];
    }

    /** `whereRaw(sql, bindings)`: record one raw predicate and return the same builder. */
    method WhereRaw(sql: string, bindings: seq<Value>) returns (self: QueryBuilder)
      modifies this`statements
      ensures statements == old(statements) + [Raw(sql, bindings)]
      ensures self == this
    {
      statements := statements + [Raw(sql, bindings)];
      self := this;
    }
  }

  /** How one key is turned into SQL text, or the error that key raises. */
  type Renderer = string -> Result<string, Error>

  /** What a run over a filter does: the statements it appends and the error that stopped it, if any. */
  datatype Outcome = Outcome(appended: seq<Statement>, failure: Option<Error>)


  /**
   * The effect of `knexFlexFilter` on a filter given as its key order, with
   * `render` standing for `processFilter` under the call's options: keys are
   * processed front to back, each appending `Raw(fragment, [value])`;
   * the first key that throws stops the run, keeping what was appended before it.
   */
  function Compile(filter: seq<(string, Value)>, render: Renderer): (o: Outcome)
    ensures |o.appended| <= |filter|
  {
    if filter == [] then Outcome([], None)
    else
      var before := Compile(filter[..|filter| - 1], render);
      var (key, value) := filter[|filter| - 1];
      if before.failure.Some? then before
      else match render(key)
        case Err(e) => Outcome(before.appended, Some(e))
        case Ok(sql) => Outcome(before.appended + [Raw(sql, [value])], None)
  }

  /** Once a prefix of the filter has failed, the keys after it change nothing. */
  lemma {:induction false} CompileStopsAtFailure(filter: seq<(string, Value)>, n: nat, render: Renderer)
    requires n <= |filter| && Compile(filter[..n], render).failure.Some?
    ensures Compile(filter, render) == Compile(filter[..n], render)
    decreases |filter|
  {
    if n == |filter| {
      assert filter[..n] == filter;
    } else {
      var init := filter[..|filter| - 1];
      assert init[..n] == filter[..n];
      CompileStopsAtFailure(init, n, render);
    }
  }

  /** Extending a prefix that has not failed by one more key. */
  lemma CompileStep(filter: seq<(string, Value)>, i: nat, render: Renderer)
    requires i < |filter| && Compile(filter[..i], render).failure.None?
    ensures render(filter[i].0).Err? ==>
              Compile(filter[..i + 1], render) == Outcome(Compile(filter[..i], render).appended, Some(render(filter[i].0).error))
    ensures render(filter[i].0).Ok? ==>
              Compile(filter[..i + 1], render) ==
                Outcome(Compile(filter[..i], render).appended + [Raw(render(filter[i].0).value, [filter[i].1])], None)
  {
    assert filter[..i + 1][..i] == filter[..i];
  }

  /** Appending the statement of a key that renders extends the run by that key. */
  lemma CompileAppend(filter: seq<(string, Value)>, i: nat, render: Renderer, base: seq<Statement>)
    requires i < |filter| && Compile(filter[..i], render).failure.None? && render(filter[i].0).Ok?
    ensures Compile(filter[..i + 1], render).failure.None?
    ensures base + Compile(filter[..i], render).appended + [Raw(render(filter[i].0).value, [filter[i].1])] ==
            base + Compile(filter[..i + 1], render).appended
  {
    CompileStep(filter, i, render);
  }

  /** A run whose key `i` is the first to throw ends with that key's error. */
  lemma CompileStopsAt(filter: seq<(string, Value)>, i: nat, render: Renderer)
    requires i < |filter| && Compile(filter[..i], render).failure.None? && render(filter[i].0).Err?
    ensures Compile(filter, render) == Outcome(Compile(filter[..i], render).appended, Some(render(filter[i].0).error))
  {
    CompileStep(filter, i, render);
    CompileStopsAtFailure(filter, i + 1, render);
  }

  /**
   * When every key renders, the run appends exactly one statement per key,
   * in key order, the i-th being the i-th key's fragment bound to `[value]`;
   * an empty filter appends nothing.
   */
  lemma {:induction false} CompileAllOk(filter: seq<(string, Value)>, render: Renderer)
    requires forall i :: 0 <= i < |filter| ==> render(filter[i].0).Ok?
    ensures Compile(filter, render).failure == None
    ensures |Compile(filter, render).appended| == |filter|
    ensures forall i :: 0 <= i < |filter| ==>
              Compile(filter, render).appended[i] == Raw(render(filter[i].0).value, [filter[i].1])
  {
    if filter != [] {
      var init, last := filter[..|filter| - 1], filter[|filter| - 1];
      CompileAllOk(init, render);
      var before := Compile(init, render).appended;
      var stmt := Raw(render(last.0).value, [last.1]);
      assert Compile(filter, render) == Outcome(before + [stmt], None);
      forall i | 0 <= i < |filter|
        ensures Compile(filter, render).appended[i] == Raw(render(filter[i].0).value, [filter[i].1])
      {
        if i < |init| {
          assert init[i] == filter[i];
        }
      }
    }
  }

  /**
   * When the key at position `i` is the first that throws, the run reports
   * that key's error and has appended exactly the statements of the keys
   * before it.
   */
  lemma CompileFailsAtFirstBadKey(filter: seq<(string, Value)>, render: Renderer, i: nat)
    requires i < |filter| && render(filter[i].0).Err?
    requires forall j :: 0 <= j < i ==> render(filter[j].0).Ok?
    ensures Compile(filter, render).failure == Some(render(filter[i].0).error)
    ensures |Compile(filter, render).appended| == i
    ensures forall j :: 0 <= j < i ==>
              Compile(filter, render).appended[j] == Raw(render(filter[j].0).value, [filter[j].1])
  {
    var prefix := filter[..i];
    assert forall j :: 0 <= j < i ==> prefix[j] == filter[j];
    CompileAllOk(prefix, render);
    assert filter[..i + 1][..i] == prefix;
    CompileStopsAtFailure(filter, i + 1, render);
  }

  /**
   * The `forEach` callback of `knexFlexFilter`: render one key under the
   * call's options and append it to the builder with `[value]` bound, or
   * stop with the key's error and leave the builder as it was.
   */
  method ApplyFilterKey(result: QueryBuilder, key: string, value: Value, opts: Options)
    returns (next: Result<QueryBuilder, Error>)
    modifies result`statements
    ensures opts.Render()(key).Err? ==>
              next == Err(opts.Render()(key).error) && result.statements == old(result.statements)
    ensures opts.Render()(key).Ok? ==>
              next == Ok(result) && result.statements == old(result.statements) + [Raw(opts.Render()(key).value, [value])]
  {
    var query := ProcessFilter(key, opts.castFn, opts.Pre());
    assert query == opts.Render()(key);
    if query.Err? {
      return Err(query.error);
    }
    var self := result.WhereRaw(query.value, [value]);
    return Ok(self);
  }

  /**
   * `knexFlexFilter(originalQuery, where, opts)`: appends to the builder the
   * statements `Compile` describes and returns the builder, or reports the
   * first failing key's error after appending the statements of the keys
   * before it.
   */
  method KnexFlexFilter(originalQuery: QueryBuilder, filter: seq<(string, Value)>, opts: Options)
    returns (result: Result<QueryBuilder, Error>)
    modifies originalQuery`statements
    ensures originalQuery.statements == old(originalQuery.statements) + Compile(filter, opts.Render()).appended
    ensures Compile(filter, opts.Render()).failure.None? ==> result == Ok(originalQuery)
    ensures Compile(filter, opts.Render()).failure.Some? ==>
              result == Err(Compile(filter, opts.Render()).failure.value)
  {
    ghost var render := opts.Render();
    var current := originalQuery;
    for i := 0 to |filter|
      invariant current == originalQuery
      invariant Compile(filter[..i], render).failure.None?
      invariant originalQuery.statements == old(originalQuery.statements) + Compile(filter[..i], render).appended
    {
      var step := ApplyFilterKey(current, filter[i].0, filter[i].1, opts);
      if step.Err? {
        CompileStopsAt(filter, i, render);
        return step;
      }
      CompileAppend(filter, i, render, old(originalQuery.statements));
      current := step.value;
    }
    assert filter[..|filter|] == filter;
    return Ok(current);
  }
}
