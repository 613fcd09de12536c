/**
 * Properties of the query builder: how each filter clause is judged, that
 * valid clauses and keys add exactly one step each in order, the phase
 * order of `search`, and the pagination window.
 */
module SearchProperties {
  import opened Json
  import opened Errors
  import opened OperatorTable
  import opened Queries
  import opened Wrappers

  /** A clause's `name` or `field` entry names a model column. */
  predicate NamesField(fields: set<string>, m: map<string, Value>, key: string) {
    key in m && m[key].Str? && m[key].s in fields
  }

  /** How many operands a clause supplies besides its column. */
  function OperandCount(m: map<string, Value>): nat {
    (if "val" in m then 1 else 0) + (if "field" in m then 1 else 0)
  }

  /**
   * A well-formed filter clause, stated on its own terms: a mapping whose
   * `name` (and `field`, if given) names a column, whose `op` is a known
   * operator, and which supplies as many operands as the operator takes.
   */
  predicate WellFormedClause(fields: set<string>, clause: Value) {
    && clause.Dict?
    && NamesField(fields, clause.entries, "name")
    && ("field" in clause.entries ==> NamesField(fields, clause.entries, "field"))
    && "op" in clause.entries && clause.entries["op"].Str? && clause.entries["op"].s in Operators
    && 1 + OperandCount(clause.entries) == Arity(Operators[clause.entries["op"].s])
  }

  /** The predicate a well-formed clause builds. */
  function ClauseCriterion(fields: set<string>, clause: Value): Criterion
    requires WellFormedClause(fields, clause)
  {
    var m := clause.entries;
    Criterion(Operators[m["op"].s],
      [Column(m["name"].s)]
      + (if "val" in m then [Literal(m["val"])] else [])
      + (if "field" in m then [Column(m["field"].s)] else []))
  }

  /** A clause is accepted exactly when it is well formed, and then builds its criterion. */
  lemma FilterClauseAcceptsWellFormed(fields: set<string>, clause: Value)
    ensures FilterClause(fields, clause).Ok? <==> WellFormedClause(fields, clause)
    ensures WellFormedClause(fields, clause) ==> FilterClause(fields, clause) == Ok(ClauseCriterion(fields, clause))
  {
    if WellFormedClause(fields, clause) {
      var m := clause.entries;
      var withVal := [Column(m["name"].s)] + (if "val" in m then [Literal(m["val"])] else []);
      if "field" in m {
        assert ClauseArgs(fields, m) == Ok(withVal + [Column(m["field"].s)]);
      } else {
        assert ClauseArgs(fields, m) == Ok(withVal);
        assert withVal + [] == withVal;
      }
    }
  }

  /** An operator name outside the table is reported as an invalid operator. */
  lemma UnknownOperatorRejected(fields: set<string>, m: map<string, Value>)
    requires NamesField(fields, m, "name")
    requires "field" in m ==> NamesField(fields, m, "field")
    requires "op" in m && m["op"].Str? && m["op"].s !in Operators
    ensures FilterClause(fields, Dict(m)) == Err(APISyntaxError(InvalidOperatorMsg))
  {
  }

  /** A clause naming a column the model does not have is reported as an invalid field. */
  lemma UnknownFieldRejected(fields: set<string>, m: map<string, Value>)
    requires "name" in m && m["name"].Str?
    requires m["name"].s !in fields || ("field" in m && m["field"].Str? && m["field"].s !in fields)
    ensures FilterClause(fields, Dict(m)) == Err(APISyntaxError(InvalidFieldMsg(Dict(m))))
  {
  }

  /** A clause without `name`, or with a valid `name` but no `op`, is missing arguments. */
  lemma MissingKeyRejected(fields: set<string>, m: map<string, Value>)
    requires "name" !in m || (NamesField(fields, m, "name")
                             && ("field" in m ==> NamesField(fields, m, "field"))
                             && "op" !in m)
    ensures FilterClause(fields, Dict(m)) == Err(APISyntaxError(MissingArgsMsg(Dict(m))))
  {
  }

  /** Supplying more or fewer operands than the operator takes is an argument-count error. */
  lemma WrongArityRejected(fields: set<string>, m: map<string, Value>)
    requires NamesField(fields, m, "name")
    requires "field" in m ==> NamesField(fields, m, "field")
    requires "op" in m && m["op"].Str? && m["op"].s in Operators
    requires 1 + OperandCount(m) != Arity(Operators[m["op"].s])
    ensures FilterClause(fields, Dict(m)) == Err(APISyntaxError(ArgCountMsg))
  {
  }

  /** A clause that is not a mapping cannot be indexed by 'name'. */
  lemma NonMappingClauseRejected(fields: set<string>, clause: Value)
    requires !clause.Dict?
    ensures FilterClause(fields, clause) == Err(APISyntaxError(ArgCountMsg))
  {
  }

  /** Every valid clause adds exactly one filter, in list order. */
  lemma {:induction false} ApplyClausesInOrder(fields: set<string>, clauses: seq<Value>, q: Query)
    requires forall i :: 0 <= i < |clauses| ==> FilterClause(fields, clauses[i]).Ok?
    ensures ApplyClauses(fields, clauses, q).Ok?
    ensures forall i :: 0 <= i < |clauses| ==>
      ApplyClauses(fields, clauses, q).value.steps[|q.steps| + i] == Filter(FilterClause(fields, clauses[i]).value)
  {
    if clauses != [] {
      var c := FilterClause(fields, clauses[0]).value;
      var q1 := Then(q, Filter(c));
      ApplyClausesInOrder(fields, clauses[1..], q1);
      var r := ApplyClauses(fields, clauses, q);
      assert r == ApplyClauses(fields, clauses[1..], q1);
      forall i | 0 <= i < |clauses|
        ensures r.value.steps[|q.steps| + i] == Filter(FilterClause(fields, clauses[i]).value)
      {
        if i == 0 {
          assert r.value.steps[..|q1.steps|] == q1.steps;
          assert r.value.steps[|q.steps|] == q1.steps[|q.steps|];
        } else {
          assert clauses[1..][i - 1] == clauses[i];
          assert |q1.steps| + (i - 1) == |q.steps| + i;
        }
      }
    }
  }

  /** The first invalid clause decides the error; no later clause is looked at. */
  lemma {:induction false} ApplyClausesFirstError(fields: set<string>, clauses: seq<Value>, q: Query, k: nat)
    requires k < |clauses|
    requires forall i :: 0 <= i < k ==> FilterClause(fields, clauses[i]).Ok?
    requires FilterClause(fields, clauses[k]).Err?
    ensures ApplyClauses(fields, clauses, q) == Err(FilterClause(fields, clauses[k]).error)
  {
    if k > 0 {
      var q1 := Then(q, Filter(FilterClause(fields, clauses[0]).value));
      assert forall i :: 0 <= i < k - 1 ==> clauses[1..][i] == clauses[i + 1];
      ApplyClausesFirstError(fields, clauses[1..], q1, k - 1);
    }
  }

  /** Every valid `__order_by` key adds exactly one order_by, in order. */
  lemma {:induction false} ApplyOrderInOrder(fields: set<string>, keys: seq<Value>, q: Query)
    requires forall i :: 0 <= i < |keys| ==> OrderKey(fields, keys[i]).Ok?
    ensures ApplyOrder(fields, keys, q).Ok?
    ensures forall i :: 0 <= i < |keys| ==>
      ApplyOrder(fields, keys, q).value.steps[|q.steps| + i] == OrderKey(fields, keys[i]).value
  {
    if keys != [] {
      var q1 := Then(q, OrderKey(fields, keys[0]).value);
      ApplyOrderInOrder(fields, keys[1..], q1);
      var r := ApplyOrder(fields, keys, q);
      forall i | 0 <= i < |keys|
        ensures r.value.steps[|q.steps| + i] == OrderKey(fields, keys[i]).value
      {
        if i == 0 {
          assert r.value.steps[..|q1.steps|] == q1.steps;
          assert r.value.steps[|q.steps|] == q1.steps[|q.steps|];
        } else {
          assert keys[1..][i - 1] == keys[i];
          assert |q1.steps| + (i - 1) == |q.steps| + i;
        }
      }
    }
  }

  /** Each `__filter_by` entry whose key names a column adds `filter_by(key=value)`. */
  lemma {:induction false} ApplyFilterByEntries(fields: set<string>, m: map<string, Value>, keys: seq<string>, q: Query)
    requires forall i :: 0 <= i < |keys| ==> keys[i] in fields && keys[i] in m
    ensures ApplyFilterBy(fields, m, keys, q).Ok?
    ensures forall i :: 0 <= i < |keys| ==>
      ApplyFilterBy(fields, m, keys, q).value.steps[|q.steps| + i] == FilterBy(keys[i], m[keys[i]])
  {
    if keys != [] {
      var q1 := Then(q, FilterBy(keys[0], m[keys[0]]));
      ApplyFilterByEntries(fields, m, keys[1..], q1);
      var r := ApplyFilterBy(fields, m, keys, q);
      forall i | 0 <= i < |keys|
        ensures r.value.steps[|q.steps| + i] == FilterBy(keys[i], m[keys[i]])
      {
        if i == 0 {
          assert r.value.steps[..|q1.steps|] == q1.steps;
          assert r.value.steps[|q.steps|] == q1.steps[|q.steps|];
        } else {
          assert keys[1..][i - 1] == keys[i];
          assert |q1.steps| + (i - 1) == |q.steps| + i;
        }
      }
    }
  }

  /** A `__filter_by` mapping whose keys all name columns adds one step per entry. */
  lemma FilterByStageEntries(fields: set<string>, decode: Decoder, order: KeyOrder, m: map<string, Value>, q: Query)
    requires ValidOrder(order)
    requires m != map[] && m.Keys <= fields
    ensures FilterByStage(fields, decode, order, Dict(m), q).Ok?
    ensures var r := FilterByStage(fields, decode, order, Dict(m), q).value;
      |r.steps| == |q.steps| + |m| &&
      forall k :: k in m ==> FilterBy(k, m[k]) in r.steps[|q.steps|..]
  {
    var keys := order(m.Keys);
    assert Enumerates(keys, m.Keys);
    ApplyFilterByEntries(fields, m, keys, q);
    EnumerationLength(keys, m.Keys);
    var r := ApplyFilterBy(fields, m, keys, q).value;
    forall k | k in m
      ensures FilterBy(k, m[k]) in r.steps[|q.steps|..]
    {
      var i :| 0 <= i < |keys| && keys[i] == k;
      assert r.steps[|q.steps|..][i] == r.steps[|q.steps| + i];
    }
  }

  lemma {:induction false} EnumerationLength(keys: seq<string>, s: set<string>)
    requires Enumerates(keys, s)
    ensures |keys| == |s|
  {
    if keys != [] {
      var rest := keys[1..];
      assert Enumerates(rest, s - {keys[0]}) by {
        forall k ensures k in rest <==> k in s - {keys[0]} {
          if k in rest {
            var j :| 0 <= j < |rest| && rest[j] == k;
            assert keys[j + 1] == k;
          }
          if k in s - {keys[0]} {
            var j :| 0 <= j < |keys| && keys[j] == k;
            assert j != 0;
            assert rest[j - 1] == k;
          }
        }
      }
      EnumerationLength(rest, s - {keys[0]});
    } else {
      assert forall k :: k !in s;
      assert s == {};
    }
  }

  /** The phase a step belongs to in `search`: filter, then order_by, then filter_by. */
  function Phase(s: Step): nat {
    match s
    case Filter(_) => 0
    case OrderBy(_, _) => 1
    case FilterBy(_, _) => 2
    case _ => 3
  }

  /**
   * `r` is `q` followed by search steps only, and no step of a later phase
   * comes before a step of an earlier one.
   */
  predicate Phased(q: Query, r: Query) {
    && |q.steps| <= |r.steps|
    && r.steps[..|q.steps|] == q.steps
    && (forall a :: |q.steps| <= a < |r.steps| ==> Phase(r.steps[a]) < 3)
    && (forall a, b :: |q.steps| <= a < b < |r.steps| ==> Phase(r.steps[a]) <= Phase(r.steps[b]))
  }

  /** `search` appends its filters, then its order_bys, then its filter_bys. */
  lemma SearchPhases(fields: set<string>, decode: Decoder, order: KeyOrder, params: map<string, Value>, q: Query)
    requires Search(fields, decode, order, params, q).Ok?
    ensures Phased(q, Search(fields, decode, order, params, q).value)
  {
    var q1 := FilterStage(fields, decode, Get(params, "__filter", Null), q).value;
    var q2 := OrderStage(fields, decode, order, Get(params, "__order_by", Null), q1).value;
    var r := Search(fields, decode, order, params, q).value;
    assert AppendsOnly(q, q1, FilterKind);
    assert AppendsOnly(q1, q2, OrderByKind);
    assert AppendsOnly(q2, r, FilterByKind);
    var i, j := |q1.steps|, |q2.steps|;
    assert r.steps[..i] == q1.steps by {
      assert r.steps[..j] == q2.steps;
      assert q2.steps[..i] == q1.steps;
    }
    assert r.steps[..|q.steps|] == q.steps by {
      assert q1.steps[..|q.steps|] == q.steps;
    }
    forall a | |q.steps| <= a < |r.steps|
      ensures Phase(r.steps[a]) == (if a < i then 0 else if a < j then 1 else 2)
    {
      if a < i {
        assert r.steps[a] == r.steps[..i][a] == q1.steps[a];
        assert IsKind(q1.steps[a], FilterKind);
      } else if a < j {
        assert r.steps[a] == r.steps[..j][a] == q2.steps[a];
        assert IsKind(q2.steps[a], OrderByKind);
      } else {
        assert IsKind(r.steps[a], FilterByKind);
      }
    }
  }

  /**
   * An unknown operator in a `__filter` list, as in
   * `?__filter=[{"name": "name", "op": "bogus_op"}]`, makes the whole search a
   * syntax error naming the invalid operator.
   */
  lemma BogusOperatorSearch(fields: set<string>, decode: Decoder, order: KeyOrder, text: string, q: Query)
    requires "name" in fields
    requires text == "[{\"name\": \"name\", \"op\": \"bogus_op\"}]"
    requires decode(text) == Decoded(List([Dict(map["name" := Str("name"), "op" := Str("bogus_op")])]))
    ensures Search(fields, decode, order, map["__filter" := Str(text)], q) == Err(APISyntaxError(InvalidOperatorMsg))
  {
    var clause := Dict(map["name" := Str("name"), "op" := Str("bogus_op")]);
    assert "bogus_op" !in Operators;
    UnknownOperatorRejected(fields, clause.entries);
  }

  /**
   * A search parameter that is not valid JSON, as in `?__filter=[{`, makes
   * the search a syntax error carrying the decoder's own message.
   */
  lemma MalformedFilterSearch(fields: set<string>, decode: Decoder, order: KeyOrder, text: string, q: Query)
    requires text != ""
    requires decode(text).Malformed?
    ensures Search(fields, decode, order, map["__filter" := Str(text)], q)
              == Err(APISyntaxError(JsonErrorMsg(decode(text).reason)))
  {
  }

  /** The pagination window: size clamped to the maximum, offset from the page. */
  lemma PaginateWindow(q: Query, pgSize: Option<int>, maxPgSize: int, page: Option<int>)
    ensures var r := Paginate(q, pgSize, Some(maxPgSize), page);
      var limit := r.value.steps[|q.steps| + 1].n;
      && r.value.steps[|q.steps|].Offset?
      && limit <= maxPgSize
      && (pgSize.Some? && pgSize.value <= maxPgSize ==> limit == pgSize.value)
      && (pgSize.None? || pgSize.value >= maxPgSize ==> limit == maxPgSize)
      && r.value.steps[|q.steps|].n == ((if page.Some? then page.value else 1) - 1) * limit
  {
  }

  /** With a maximum of 100, asking for 500 rows per page yields pages of 100. */
  lemma PaginateClampExample(q: Query)
    ensures Paginate(q, Some(500), Some(100), None) == Ok(Query(q.steps + [Offset(0), Limit(100)]))
    ensures Paginate(q, None, None, Some(3)) == Ok(q)
  {
  }
}
