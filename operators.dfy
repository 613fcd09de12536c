/**
 * The operator table (`OPERATORS`): the names a filter clause may use and
 * the predicate builder each name selects.
 */
module OperatorTable {

  /** The distinct predicate builders behind the operator names. */
  datatype OpKind =
    | IsNull | IsNotNull   // f == None, f != None
    | Desc | Asc           // f.desc, f.asc
    | Eq | Ne | Gt | Lt | Ge | Le
    | ILike | Like         // f.ilike(a), f.like(a)
    | In | NotIn           // f.in_(a), ~f.in_(a)

  /** `OPERATORS`: every accepted spelling and the builder it selects. */
  const Operators: map<string, OpKind> := map[
    "is_null" := IsNull,
    "is_not_null" := IsNotNull,
    "desc" := Desc,
    "asc" := Asc,
    "==" := Eq,
    "eq" := Eq,
    "equals" := Eq,
    "equal_to" := Eq,
    "!=" := Ne,
    "ne" := Ne,
    "neq" := Ne,
    "not_equal_to" := Ne,
    "does_not_equal" := Ne,
    ">" := Gt,
    "gt" := Gt,
    "<" := Lt,
    "lt" := Lt,
    ">=" := Ge,
    "ge" := Ge,
    "gte" := Ge,
    "geq" := Ge,
    "<=" := Le,
    "le" := Le,
    "lte" := Le,
    "leq" := Le,
    "ilike" := ILike,
    "like" := Like,
    "in" := In,
    "not_in" := NotIn
  ]

  /** How many positional arguments the builder's lambda takes. */
  function Arity(k: OpKind): (n: nat)
    ensures n == 1 || n == 2
  {
    match k
    case IsNull | IsNotNull | Desc | Asc => 1
    case _ => 2
  }

  /** The names whose builder takes a single argument. */
  const UnaryNames: set<string> := {"is_null", "is_not_null", "desc", "asc"}

  /** `is_null`, `is_not_null`, `desc` and `asc` take one argument; every other entry takes two. */
  lemma ArityByName(name: string)
    requires name in Operators
    ensures Arity(Operators[name]) == 1 <==> name in UnaryNames
    ensures Arity(Operators[name]) == 2 <==> name !in UnaryNames
  {
  }
}
