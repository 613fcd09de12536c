/**
 * The query builder behind `API.search` and `API.paginate`.  The data
 * engine's query object is modelled as the list of steps applied to it:
 * what the engine then does with those steps is outside this model.
 */
module Queries {
  import opened Json
  import opened Errors
  import opened OperatorTable
  import opened Wrappers

  /** An argument of an operator builder: a model column or a literal. */
  datatype Operand = Column(name: string) | Literal(v: Value)

  /** The predicate an operator builder returns: the builder and its arguments. */
  datatype Criterion = Criterion(op: OpKind, args: seq<Operand>)

  /** One call on the query object. */
  datatype Step =
    | Filter(criterion: Criterion)             // query.filter(pred)
    | OrderBy(field: string, descending: bool) // query.order_by(col) / col.desc()
    | FilterBy(key: string, val: Value)        // query.filter_by(key=val)
    | Offset(n: int)                           // query.offset(n)
    | Limit(n: int)                            // query.limit(n)

  datatype Query = Query(steps: seq<Step>)

  /** The query with one more call applied. */
  function Then(q: Query, s: Step): (r: Query)
    ensures r.steps == q.steps + [s]
  {
    Query(q.steps + [s])
  }

  /** The three kinds of step `search` appends. */
  datatype StepKind = FilterKind | OrderByKind | FilterByKind

  predicate IsKind(s: Step, kind: StepKind) {
    match kind
    case FilterKind => s.Filter?
    case OrderByKind => s.OrderBy?
    case FilterByKind => s.FilterBy?
  }

  /** `r` is `q` with zero or more steps of one kind appended. */
  predicate AppendsOnly(q: Query, r: Query, kind: StepKind) {
    && |q.steps| <= |r.steps|
    && r.steps[..|q.steps|] == q.steps
    && forall k :: |q.steps| <= k < |r.steps| ==> IsKind(r.steps[k], kind)
  }

  /** The outcome of the external JSON decoder on a string parameter. */
  datatype Decoding = Decoded(v: Value) | Malformed(reason: string)

  /** `json.loads`, supplied by the environment. */
  type Decoder = string -> Decoding

  function JsonErrorMsg(reason: string): string {
    "Error decoding JSON parameters. Original exception was " + reason
  }

  /** `safe_json`: a decoding failure becomes a syntax error. */
  function SafeJson(decode: Decoder, text: string): (r: Result<Value>)
    ensures r.Err? <==> decode(text).Malformed?
    ensures r.Err? ==> r.error == APISyntaxError(JsonErrorMsg(decode(text).reason))
    ensures r.Ok? ==> r.value == decode(text).v
  {
    match decode(text)
    case Decoded(v) => Ok(v)
    case Malformed(reason) => Err(APISyntaxError(JsonErrorMsg(reason)))
  }

  /** A search parameter: decoded when it arrives as a JSON-encoded string. */
  function Param(decode: Decoder, v: Value): Result<Value> {
    if v.Str? then SafeJson(decode, v.s) else Ok(v)
  }

  // ---------------------------------------------------------------- filter

  /** `getattr(self.model, v)`: a column of the model, looked up by name. */
  function ModelAttr(fields: set<string>, v: Value): (r: Result<Operand>)
    ensures r.Ok? <==> v.Str? && v.s in fields
    ensures r.Ok? ==> r.value == Column(v.s)
    ensures r.Err? ==> r.error == (if v.Str? then AttributeError else TypeError)
  {
    if !v.Str? then Err(TypeError)          // attribute name must be a string
    else if v.s in fields then Ok(Column(v.s))
    else Err(AttributeError)
  }

  /** `OPERATORS.get(v)`: unhashable keys raise, unknown keys give None. */
  function OperatorFor(v: Value): Result<Option<OpKind>> {
    if v.List? || v.Dict? then Err(TypeError)
    else if v.Str? && v.s in Operators then Ok(Some(Operators[v.s]))
    else Ok(None)
  }

  /** The positional arguments a clause supplies: `name`, then `val`, then `field`. */
  function ClauseArgs(fields: set<string>, m: map<string, Value>): Result<seq<Operand>>
    requires "name" in m
  {
    var lhs :- ModelAttr(fields, m["name"]);
    var withVal := [lhs] + (if "val" in m then [Literal(m["val"])] else []);
    if "field" in m then
      var rhs :- ModelAttr(fields, m["field"]);
      Ok(withVal + [rhs])
    else Ok(withVal)
  }

  /** One clause evaluated inside the `try` of `search`, raising Python's own exceptions. */
  function RawClause(fields: set<string>, clause: Value): (r: Result<Criterion>)
    ensures r.Err? ==> r.error.KeyError? || r.error.AttributeError? || r.error.TypeError?
                       || r.error == APISyntaxError(InvalidOperatorMsg)
  {
    if !clause.Dict? then Err(TypeError)     // op['name'] on a non-mapping
    else
      var m := clause.entries;
      if "name" !in m then Err(KeyError("name"))
      else
        var args :- ClauseArgs(fields, m);
        if "op" !in m then Err(KeyError("op"))
        else
          var kind :- OperatorFor(m["op"]);
          match kind
          case None => Err(APISyntaxError(InvalidOperatorMsg))
          case Some(k) =>
            if |args| == Arity(k) then Ok(Criterion(k, args))
            else Err(TypeError)               // the lambda called with the wrong count
  }

  const InvalidOperatorMsg := "Invalid operator specified in filter arguments"
  const ArgCountMsg := "Incorrect argument count for requested filter operation"

  function InvalidFieldMsg(clause: Value): string {
    "Filter operator \"" + Show(clause) + "\" accessed invalid field"
  }

  function MissingArgsMsg(clause: Value): string {
    "Filter operator \"" + Show(clause) + "\" was missing required arguments"
  }

  /** The except clauses of the filter loop: every caught kind becomes a syntax error. */
  function TranslateFilterError(e: Exc, clause: Value): (r: Exc)
    ensures e.AttributeError? || e.KeyError? || e.TypeError? || e.APISyntaxError? ==> r.APISyntaxError?
  {
    match e
    case AttributeError => APISyntaxError(InvalidFieldMsg(clause))
    case KeyError(_) => APISyntaxError(MissingArgsMsg(clause))
    case TypeError => APISyntaxError(ArgCountMsg)
    case _ => e
  }

  /** One filter clause as `search` handles it. */
  function FilterClause(fields: set<string>, clause: Value): (r: Result<Criterion>)
    ensures r.Err? ==> r.error.APISyntaxError?
    ensures r.Ok? ==> |r.value.args| == Arity(r.value.op) && r.value.args[0].Column?
                      && r.value.args[0].name in fields
  {
    match RawClause(fields, clause)
    case Ok(c) => Ok(c)
    case Err(e) => Err(TranslateFilterError(e, clause))
  }

  /** The filter loop: one `query.filter` per clause, in list order. */
  function ApplyClauses(fields: set<string>, clauses: seq<Value>, q: Query): (r: Result<Query>)
    ensures r.Err? ==> r.error.APISyntaxError?
    ensures r.Ok? ==> |r.value.steps| == |q.steps| + |clauses| && r.value.steps[..|q.steps|] == q.steps
    ensures r.Ok? ==> forall k :: |q.steps| <= k < |r.value.steps| ==> r.value.steps[k].Filter?
  {
    if clauses == [] then Ok(q)
    else
      var c :- FilterClause(fields, clauses[0]);
      ApplyClauses(fields, clauses[1..], Then(q, Filter(c)))
  }

  /**
   * The `__filter` stage of `search`.  A truthy parameter is decoded if it is
   * a string and then iterated: a list yields its clauses, a mapping its keys
   * and a string its characters, and neither keys nor characters can be
   * indexed by 'name'.  A value that cannot be iterated at all is reported
   * as an argument-count error; see FilterStageAsWritten for the code's
   * own behaviour there.
   */
  function FilterStage(fields: set<string>, decode: Decoder, filters: Value, q: Query): (r: Result<Query>)
    ensures r.Err? ==> r.error.APISyntaxError?
    ensures r.Ok? ==> AppendsOnly(q, r.value, FilterKind)
  {
    if !Truthy(filters) then Ok(q)
    else
      var decoded :- Param(decode, filters);
      match decoded
      case List(clauses) => ApplyClauses(fields, clauses, q)
      case Dict(m) => if m == map[] then Ok(q) else Err(APISyntaxError(ArgCountMsg))
      case Str(t) => if t == "" then Ok(q) else Err(APISyntaxError(ArgCountMsg))
      case _ => Err(APISyntaxError(ArgCountMsg))
  }

  /**
   * The `__filter` stage exactly as written: iterating a number or a boolean
   * raises TypeError before the loop variable `op` is bound, and the
   * handler's `.format(op)` then raises UnboundLocalError, which escapes
   * every except clause.
   */
  function FilterStageAsWritten(fields: set<string>, decode: Decoder, filters: Value, q: Query): Result<Query> {
    if !Truthy(filters) then Ok(q)
    else
      var decoded :- Param(decode, filters);
      match decoded
      case List(clauses) => ApplyClauses(fields, clauses, q)
      case Dict(m) => if m == map[] then Ok(q) else Err(APISyntaxError(ArgCountMsg))
      case Str(t) => if t == "" then Ok(q) else Err(APISyntaxError(ArgCountMsg))
      case _ => Err(UnboundLocalError)
  }

  /** The input that shows the difference: `__filter=5` in a query string. */
  lemma FilterStageAsWrittenEscapes(fields: set<string>, decode: Decoder, q: Query)
    requires decode("5") == Decoded(Int(5))
    ensures FilterStageAsWritten(fields, decode, Str("5"), q) == Err(UnboundLocalError)
    ensures Classify(UnboundLocalError).None?
    ensures FilterStage(fields, decode, Str("5"), q) == Err(APISyntaxError(ArgCountMsg))
  {
    ClassifyTable(UnboundLocalError);
  }

  /** The two stages differ only on a decoded value that cannot be iterated. */
  lemma FilterStageCorrection(fields: set<string>, decode: Decoder, filters: Value, q: Query)
    ensures FilterStageAsWritten(fields, decode, filters, q) != FilterStage(fields, decode, filters, q)
            <==> Truthy(filters) && Param(decode, filters).Ok?
                 && (Param(decode, filters).value.Null? || Param(decode, filters).value.Bool?
                     || Param(decode, filters).value.Int?)
  {
  }

  // -------------------------------------------------------------- order_by

  /** The `__order_by` key a step came from. */
  function OrderKeyText(s: Step): string
    requires s.OrderBy?
  {
    (if s.descending then "-" else "") + s.field
  }

  function OrderByMsg(key: Value): string {
    "Order_by operator \"" + Show(key) + "\" accessed invalid field"
  }

  /** One `__order_by` key: `-name` orders descending on `name`, anything else ascending. */
  function OrderKey(fields: set<string>, key: Value): (r: Result<Step>)
    ensures r.Err? ==> r.error == APISyntaxError(OrderByMsg(key))
    ensures r.Ok? ==> key.Str? && r.value.OrderBy? && r.value.field in fields
                      && r.value.descending == StartsWithDash(key.s)
                      && OrderKeyText(r.value) == key.s
    ensures key.Str? && (if StartsWithDash(key.s) then key.s[1..] else key.s) in fields ==> r.Ok?
  {
    if !key.Str? then Err(APISyntaxError(OrderByMsg(key)))   // key.startswith on a non-string
    else if StartsWithDash(key.s) then
      if key.s[1..] in fields then Ok(OrderBy(key.s[1..], true))
      else Err(APISyntaxError(OrderByMsg(key)))
    else if key.s in fields then Ok(OrderBy(key.s, false))
    else Err(APISyntaxError(OrderByMsg(key)))
  }

  /** The order_by loop: one `query.order_by` per key, in order. */
  function ApplyOrder(fields: set<string>, keys: seq<Value>, q: Query): (r: Result<Query>)
    ensures r.Err? ==> r.error.APISyntaxError?
    ensures r.Ok? ==> |r.value.steps| == |q.steps| + |keys| && r.value.steps[..|q.steps|] == q.steps
    ensures r.Ok? ==> forall k :: |q.steps| <= k < |r.value.steps| ==> r.value.steps[k].OrderBy?
  {
    if keys == [] then Ok(q)
    else
      var s :- OrderKey(fields, keys[0]);
      ApplyOrder(fields, keys[1..], Then(q, s))
  }

  /** The strings a loop over a mapping's keys sees. */
  function KeyValues(keys: seq<string>): (r: seq<Value>)
    ensures |r| == |keys| && forall i :: 0 <= i < |r| ==> r[i] == Str(keys[i])
  {
    if keys == [] then [] else [Str(keys[0])] + KeyValues(keys[1..])
  }

  /** The one-character strings a loop over a string sees. */
  function CharValues(t: string): (r: seq<Value>)
    ensures |r| == |t| && forall i :: 0 <= i < |r| ==> r[i] == Str([t[i]])
  {
    if t == [] then [] else [Str([t[0]])] + CharValues(t[1..])
  }

  /**
   * What `for x in v` iterates over: a list's items, a mapping's keys in
   * iteration order, or a string's characters.  Anything else is a TypeError.
   */
  function Iterated(v: Value, order: KeyOrder): (r: Result<seq<Value>>)
    ensures r.Ok? <==> v.List? || v.Dict? || v.Str?
    ensures r.Err? ==> r.error == TypeError
    ensures v.List? ==> r == Ok(v.items)
    ensures v.Dict? ==> r.Ok? && |r.value| == |order(v.entries.Keys)|
                        && forall i :: 0 <= i < |r.value| ==> r.value[i] == Str(order(v.entries.Keys)[i])
    ensures v.Str? ==> r.Ok? && |r.value| == |v.s| && forall i :: 0 <= i < |r.value| ==> r.value[i] == Str([v.s[i]])
  {
    match v
    case List(items) => Ok(items)
    case Dict(m) => Ok(KeyValues(order(m.Keys)))
    case Str(t) => Ok(CharValues(t))
    case _ => Err(TypeError)
  }

  /** The `__order_by` stage of `search`. */
  function OrderStage(fields: set<string>, decode: Decoder, order: KeyOrder, orderBy: Value, q: Query): (r: Result<Query>)
    ensures r.Err? ==> r.error.APISyntaxError? || r.error == TypeError
    ensures r.Ok? ==> AppendsOnly(q, r.value, OrderByKind)
  {
    if !Truthy(orderBy) then Ok(q)
    else
      var decoded :- Param(decode, orderBy);
      var keys :- Iterated(decoded, order);   // not iterable: TypeError; only AttributeError is caught
      ApplyOrder(fields, keys, q)
  }

  // ------------------------------------------------------------- filter_by

  function FilterByMsg(key: string): string {
    "Filter_by key \"" + key + "\" accessed invalid field"
  }

  /** The filter_by loop over `filter_by.items()`, in the mapping's iteration order. */
  function ApplyFilterBy(fields: set<string>, m: map<string, Value>, keys: seq<string>, q: Query): (r: Result<Query>)
    ensures r.Err? ==> exists i :: 0 <= i < |keys| && keys[i] !in fields && r.error == APISyntaxError(FilterByMsg(keys[i]))
    ensures r.Ok? <==> forall i :: 0 <= i < |keys| ==> keys[i] in fields
    ensures r.Ok? ==> |r.value.steps| == |q.steps| + |keys| && r.value.steps[..|q.steps|] == q.steps
    ensures r.Ok? ==> forall k :: |q.steps| <= k < |r.value.steps| ==> r.value.steps[k].FilterBy?
  {
    if keys == [] then Ok(q)
    else if keys[0] in fields then
      var r := ApplyFilterBy(fields, m, keys[1..], Then(q, FilterBy(keys[0], Get(m, keys[0], Null))));
      assert r.Err? ==> exists i :: 0 <= i < |keys[1..]| && keys[1..][i] !in fields && r.error == APISyntaxError(FilterByMsg(keys[1..][i]));
      r
    else Err(APISyntaxError(FilterByMsg(keys[0])))
  }

  /** The `__filter_by` stage of `search`. */
  function FilterByStage(fields: set<string>, decode: Decoder, order: KeyOrder, filterBy: Value, q: Query): (r: Result<Query>)
    ensures r.Err? ==> r.error.APISyntaxError? || r.error == AttributeError
    ensures r.Ok? ==> AppendsOnly(q, r.value, FilterByKind)
  {
    if !Truthy(filterBy) then Ok(q)
    else
      var decoded :- Param(decode, filterBy);
      if !decoded.Dict? then Err(AttributeError)  // .items() on a non-mapping, outside any try
      else ApplyFilterBy(fields, decoded.entries, order(decoded.entries.Keys), q)
  }

  /** The reserved parameters `search` consumes. */
  const SearchKeys: set<string> := {"__filter", "__order_by", "__filter_by"}

  /** `search`: filter, then order_by, then filter_by, each building on the last. */
  function Search(fields: set<string>, decode: Decoder, order: KeyOrder, params: map<string, Value>, q: Query): (r: Result<Query>)
    ensures r.Err? ==> r.error.APISyntaxError? || r.error == TypeError || r.error == AttributeError
  {
    var q1 :- FilterStage(fields, decode, Get(params, "__filter", Null), q);
    var q2 :- OrderStage(fields, decode, order, Get(params, "__order_by", Null), q1);
    FilterByStage(fields, decode, order, Get(params, "__filter_by", Null), q2)
  }

  // -------------------------------------------------------------- paginate

  function Min(a: int, b: int): int {
    if a <= b then a else b
  }

  /**
   * `paginate`'s arithmetic.  `pgSize` and `page` are the parameters (None when
   * absent), `maxPgSize` the class setting.
   */
  function Paginate(q: Query, pgSize: Option<int>, maxPgSize: Option<int>, page: Option<int>): (r: Result<Query>)
    ensures pgSize.None? && maxPgSize.None? ==> r == Ok(q)
    ensures pgSize.Some? && maxPgSize.None? ==> r == Err(TypeError)
    ensures maxPgSize.Some? ==> r.Ok? && |r.value.steps| == |q.steps| + 2 && r.value.steps[..|q.steps|] == q.steps
    ensures maxPgSize.Some? ==> r.value.steps[|q.steps| + 1].Limit?
                                && r.value.steps[|q.steps| + 1].n <= maxPgSize.value
  {
    if pgSize.None? && maxPgSize.None? then Ok(q)
    else if maxPgSize.None? then Err(TypeError)   // min(pg_size, None) is None in Python 2
    else
      var size := Min(if pgSize.Some? then pgSize.value else maxPgSize.value, maxPgSize.value);
      var pg := if page.Some? then page.value else 1;
      Ok(Query(q.steps + [Offset((pg - 1) * size), Limit(size)]))
  }
}
