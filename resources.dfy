/**
 * The collaborators the resource engine drives: entity instances, the model
 * class with its query interface, and the outcome of invoking a named
 * operation.  Everything here is supplied by the data engine; the engine in
 * lever/base.py only reads it.
 */
module Resources {
  import opened Json
  import opened Errors
  import opened Wrappers
  import opened Queries

  /** What invoking a named operation with keyword arguments produced. */
  datatype Call<+T> =
    | Returned(value: T)
    | WrongArgs          // a TypeError about the number of arguments
    | Raised(error: Exc) // any other failure, passed on unchanged

  /** An entity instance, as far as the engine can observe it. */
  datatype Obj = Obj(
    cls: string,                                      // obj.__class__.__name__
    doc: map<string, Value>,                          // obj.to_dict()
    attrs: map<string, Value>,                        // the attribute values jsonize reads
    profiles: map<string, Value>,                     // getattr(obj, name) for a join profile name
    related: map<string, Related>,                    // relationship attributes
    can: string -> bool,                              // obj.can(action)
    act: (string, map<string, Value>) -> Call<Value>) // getattr(obj, name)(**params)

  /** The value of a relationship attribute: None, one object, or a list or query of them. */
  datatype Related = Nothing | Single(obj: Obj) | Several(objs: seq<Obj>)

  /** The outcome of `query.one()`. */
  datatype One = Row(obj: Obj) | NoRow | ManyRows

  /** The model class an API wraps. */
  datatype Model = Model(
    name: string,                                           // self.model.__name__
    fields: set<string>,                                    // attribute names getattr resolves
    canCls: string -> bool,                                 // model.can_cls(action)
    one: Query -> One,                                      // query.one()
    rows: Query -> seq<Obj>,                                // iterating a query
    create: (map<string, Value>, Obj) -> Call<Option<Obj>>, // model.create(user=..., **params)
    act: (string, map<string, Value>) -> Call<Value>)       // a class-level action

  /** `query.one()` as a result: zero or several rows raise. */
  function OneRow(o: One): (r: Result<Obj>)
    ensures r.Ok? <==> o.Row?
    ensures r.Ok? ==> r.value == o.obj
    ensures o.NoRow? ==> r == Err(NoResultFound)
    ensures o.ManyRows? ==> r == Err(MultipleResultsFound)
  {
    match o
    case Row(x) => Ok(x)
    case NoRow => Err(NoResultFound)
    case ManyRows => Err(MultipleResultsFound)
  }

  /** A lookup that matches nothing is reported as 404, one that matches several as 400. */
  lemma OneFailuresClassified(o: One)
    requires !o.Row?
    ensures Classify(OneRow(o).error).Some?
    ensures Classify(OneRow(o).error).value.code == (if o.NoRow? then 404 else 400)
  {
    ClassifyTable(OneRow(o).error);
  }
}
