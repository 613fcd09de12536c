/**
 * The failures the resource engine raises or lets through, the ordered
 * except clauses of `API.dispatch_request` that classify them, and the
 * `LeverException` that carries a classification back to the caller.
 */
module Errors {
  import opened Json
  import opened Wrappers

  /** The exception kinds that can reach the dispatch boundary. */
  datatype Exc =
    | KeyError(key: string)
    | AttributeError
    | AssertionError(msg: string)       // a failed capability check
    | TypeError
    | UnboundLocalError                 // a local variable read before assignment
    | APISyntaxError(msg: string)
    | APINotFound(msg: string)
    | NoResultFound                     // Query.one() matched nothing
    | MultipleResultsFound              // Query.one() matched several rows
    | InvalidRequestError
    | IntegrityError
    | DataError
    | OtherSQLAlchemyError(name: string) // any other SQLAlchemyError subclass
    | OtherError(name: string)           // anything else

  /** A computation that either yields a value or raises. */
  datatype Result<+T> = Ok(value: T) | Err(error: Exc) {
    predicate IsFailure() {
      Err?
    }

    function PropagateFailure<U>(): Result<U>
      requires Err?
    {
      Err(error)
    }

    function Extract(): T
      requires Ok?
    {
      value
    }
  }

  /** The classes named by the except clauses of dispatch_request. */
  datatype ExcClass =
    | KeyErrorClass
    | AttributeErrorClass
    | AssertionErrorClass
    | APISyntaxErrorClass
    | APINotFoundClass
    | NoResultFoundClass
    | MultipleResultsFoundClass
    | IntegrityErrorClass
    | InvalidRequestErrorClass
    | DataErrorClass
    | SQLAlchemyErrorClass

  /**
   * `isinstance(e, c)`.  In SQLAlchemy, NoResultFound and MultipleResultsFound
   * derive from InvalidRequestError, and every database error derives from
   * SQLAlchemyError.
   */
  predicate IsInstance(e: Exc, c: ExcClass) {
    match c
    case KeyErrorClass => e.KeyError?
    case AttributeErrorClass => e.AttributeError?
    case AssertionErrorClass => e.AssertionError?
    case APISyntaxErrorClass => e.APISyntaxError?
    case APINotFoundClass => e.APINotFound?
    case NoResultFoundClass => e.NoResultFound?
    case MultipleResultsFoundClass => e.MultipleResultsFound?
    case IntegrityErrorClass => e.IntegrityError?
    case InvalidRequestErrorClass =>
      e.InvalidRequestError? || e.NoResultFound? || e.MultipleResultsFound?
    case DataErrorClass => e.DataError?
    case SQLAlchemyErrorClass =>
      || e.NoResultFound? || e.MultipleResultsFound? || e.InvalidRequestError?
      || e.IntegrityError? || e.DataError? || e.OtherSQLAlchemyError?
  }

  /** The except clauses for the engine's own failures, tried first. */
  const EngineClauses: seq<ExcClass> := [
    KeyErrorClass,
    AttributeErrorClass,
    AssertionErrorClass,
    APISyntaxErrorClass,
    APINotFoundClass
  ]

  /** The SQLAlchemy except clauses, most specific first. */
  const DatabaseClauses: seq<ExcClass> := [
    NoResultFoundClass,
    MultipleResultsFoundClass,
    IntegrityErrorClass,
    InvalidRequestErrorClass,
    DataErrorClass,
    SQLAlchemyErrorClass
  ]

  /** The except clauses of dispatch_request, in the order Python tries them. */
  const ExceptClauses: seq<ExcClass> := EngineClauses + DatabaseClauses

  /** The `ret` tuple an except clause builds: code, message, optional detail. */
  datatype Handled = Handled(code: int, message: string, detail: Option<map<string, Value>>)

  /** The body of the except clause for class `c`, run on the caught `e`. */
  function ClauseResult(c: ExcClass, e: Exc): (h: Handled)
    requires IsInstance(e, c)
    ensures h.code in {400, 402, 403, 404, 409}
  {
    match c
    case KeyErrorClass =>
      Handled(400, "Incorrect syntax or missing key " + e.key, Some(map["key" := Str(e.key)]))
    case AttributeErrorClass => Handled(400, "Incorrect syntax or missing key", None)
    case AssertionErrorClass => Handled(403, "You don't have permission to do that", None)
    case APISyntaxErrorClass => Handled(400, e.msg, None)
    case APINotFoundClass => Handled(404, e.msg, None)
    case NoResultFoundClass => Handled(404, "Could not be found", None)
    case MultipleResultsFoundClass =>
      Handled(400, "Only one result requested, but MultipleResultsFound", None)
    case IntegrityErrorClass =>
      Handled(409, "A duplicate value already exists in the database", None)
    case InvalidRequestErrorClass =>
      Handled(400, "Client programming error, likely invalid search sytax used.", None)
    case DataErrorClass => Handled(400, "ORM returned invalid data for an argument", None)
    case SQLAlchemyErrorClass =>
      Handled(402, "An unknown database operations error has occurred", None)
  }

  /** Python's except-clause selection: the first clause whose class `e` is an instance of. */
  function FirstMatch(clauses: seq<ExcClass>, e: Exc): (r: Option<Handled>)
    ensures r.None? <==> forall i :: 0 <= i < |clauses| ==> !IsInstance(e, clauses[i])
    ensures r.Some? ==> r.value.code in {400, 402, 403, 404, 409}
  {
    if clauses == [] then None
    else if IsInstance(e, clauses[0]) then Some(ClauseResult(clauses[0], e))
    else FirstMatch(clauses[1..], e)
  }

  /** dispatch_request's classification; None means the bare `except: raise`. */
  function Classify(e: Exc): Option<Handled> {
    FirstMatch(ExceptClauses, e)
  }

  lemma {:induction false} FirstMatchPicksFirst(clauses: seq<ExcClass>, e: Exc, i: nat)
    requires i < |clauses| && IsInstance(e, clauses[i])
    requires forall j :: 0 <= j < i ==> !IsInstance(e, clauses[j])
    ensures FirstMatch(clauses, e) == Some(ClauseResult(clauses[i], e))
  {
    if i > 0 {
      assert !IsInstance(e, clauses[0]);
      FirstMatchPicksFirst(clauses[1..], e, i - 1);
    }
  }

  /**
   * The exception table read kind by kind, independently of the clause
   * order: what each kind of failure becomes at the dispatch boundary.
   */
  function ExpectedClassification(e: Exc): Option<Handled> {
    match e
    case KeyError(k) =>
      Some(Handled(400, "Incorrect syntax or missing key " + k, Some(map["key" := Str(k)])))
    case AttributeError => Some(Handled(400, "Incorrect syntax or missing key", None))
    case AssertionError(_) => Some(Handled(403, "You don't have permission to do that", None))
    case APISyntaxError(m) => Some(Handled(400, m, None))
    case APINotFound(m) => Some(Handled(404, m, None))
    case NoResultFound => Some(Handled(404, "Could not be found", None))
    case MultipleResultsFound =>
      Some(Handled(400, "Only one result requested, but MultipleResultsFound", None))
    case IntegrityError => Some(Handled(409, "A duplicate value already exists in the database", None))
    case InvalidRequestError =>
      Some(Handled(400, "Client programming error, likely invalid search sytax used.", None))
    case DataError => Some(Handled(400, "ORM returned invalid data for an argument", None))
    case OtherSQLAlchemyError(_) =>
      Some(Handled(402, "An unknown database operations error has occurred", None))
    case TypeError => None
    case UnboundLocalError => None
    case OtherError(_) => None
  }

  /** The ordered except clauses produce exactly the kind-by-kind table. */
  lemma ClassifyTable(e: Exc)
    ensures Classify(e) == ExpectedClassification(e)
  {
    if e.KeyError? || e.AttributeError? || e.AssertionError? || e.APISyntaxError? || e.APINotFound? {
      ClassifyEngine(e);
    } else if e.TypeError? || e.UnboundLocalError? || e.OtherError? {
      ClassifyUnhandled(e);
    } else {
      ClassifyDatabase(e);
    }
  }

  /** A clause list whose front matches is decided by its front. */
  lemma {:induction false} FirstMatchFront(a: seq<ExcClass>, b: seq<ExcClass>, e: Exc)
    requires FirstMatch(a, e).Some?
    ensures FirstMatch(a + b, e) == FirstMatch(a, e)
  {
    assert (a + b)[0] == a[0] && (a + b)[1..] == a[1..] + b;
    if !IsInstance(e, a[0]) {
      FirstMatchFront(a[1..], b, e);
    }
  }

  /** A front that cannot match is passed over. */
  lemma {:induction false} FirstMatchBack(a: seq<ExcClass>, b: seq<ExcClass>, e: Exc)
    requires forall c :: c in a ==> !IsInstance(e, c)
    ensures FirstMatch(a + b, e) == FirstMatch(b, e)
  {
    if a == [] {
      assert a + b == b;
    } else {
      assert (a + b)[0] == a[0] && (a + b)[1..] == a[1..] + b;
      assert a[0] in a;
      assert forall c :: c in a[1..] ==> c in a;
      assert FirstMatch(a + b, e) == FirstMatch(a[1..] + b, e);
      FirstMatchBack(a[1..], b, e);
    }
  }

  /** The failures the engine itself raises meet their clause among the first five. */
  lemma ClassifyEngine(e: Exc)
    requires e.KeyError? || e.AttributeError? || e.AssertionError? || e.APISyntaxError? || e.APINotFound?
    ensures Classify(e) == ExpectedClassification(e)
  {
    var cs := EngineClauses;
    match e {
      case KeyError(_) => FirstMatchPicksFirst(cs, e, 0);
      case AttributeError => FirstMatchPicksFirst(cs, e, 1);
      case AssertionError(_) => FirstMatchPicksFirst(cs, e, 2);
      case APISyntaxError(_) => FirstMatchPicksFirst(cs, e, 3);
      case APINotFound(_) => FirstMatchPicksFirst(cs, e, 4);
    }
    FirstMatchFront(cs, DatabaseClauses, e);
  }

  /** Database failures pass the first five clauses and meet their own among the last six. */
  lemma ClassifyDatabase(e: Exc)
    requires || e.NoResultFound? || e.MultipleResultsFound? || e.IntegrityError?
             || e.InvalidRequestError? || e.DataError? || e.OtherSQLAlchemyError?
    ensures Classify(e) == ExpectedClassification(e)
  {
    FirstMatchBack(EngineClauses, DatabaseClauses, e);
    if e.NoResultFound? || e.MultipleResultsFound? || e.IntegrityError? {
      LookupTable(e);
    } else {
      BroadTable(e);
    }
  }

  /** The three specific database failures meet their own clauses, ahead of the broad ones. */
  lemma LookupTable(e: Exc)
    requires e.NoResultFound? || e.MultipleResultsFound? || e.IntegrityError?
    ensures FirstMatch(DatabaseClauses, e) == ExpectedClassification(e)
  {
    var ds := DatabaseClauses;
    match e
    case NoResultFound => FirstMatchPicksFirst(ds, e, 0);
    case MultipleResultsFound => FirstMatchPicksFirst(ds, e, 1);
    case IntegrityError => FirstMatchPicksFirst(ds, e, 2);
  }

  /** The broad database failures meet the last three clauses. */
  lemma BroadTable(e: Exc)
    requires e.InvalidRequestError? || e.DataError? || e.OtherSQLAlchemyError?
    ensures FirstMatch(DatabaseClauses, e) == ExpectedClassification(e)
  {
    var ds := DatabaseClauses;
    match e
    case InvalidRequestError => FirstMatchPicksFirst(ds, e, 3);
    case DataError => FirstMatchPicksFirst(ds, e, 4);
    case OtherSQLAlchemyError(_) => FirstMatchPicksFirst(ds, e, 5);
  }

  /** Every other failure passes every clause and is re-raised. */
  lemma ClassifyUnhandled(e: Exc)
    requires e.TypeError? || e.UnboundLocalError? || e.OtherError?
    ensures Classify(e).None?
  {
    DatabaseClausesMiss(e);
    FirstMatchBack(EngineClauses, DatabaseClauses, e);
  }

  lemma DatabaseClausesMiss(e: Exc)
    requires e.TypeError? || e.UnboundLocalError? || e.OtherError?
    ensures FirstMatch(DatabaseClauses, e).None?
  {
    FirstMatchBack(DatabaseClauses, [], e);
    assert DatabaseClauses + [] == DatabaseClauses;
  }

  /**
   * NoResultFound is an InvalidRequestError and a SQLAlchemyError, yet it is
   * reported as 404, because its own clause comes before theirs.
   */
  lemma NoResultFoundShadowsBroaderClauses()
    ensures IsInstance(NoResultFound, InvalidRequestErrorClass)
    ensures IsInstance(NoResultFound, SQLAlchemyErrorClass)
    ensures ClauseResult(InvalidRequestErrorClass, NoResultFound).code == 400
    ensures Classify(NoResultFound).Some? && Classify(NoResultFound).value.code == 404
  {
    ClassifyDatabase(NoResultFound);
  }

  /** The exception dispatch_request raises for a classified failure. */
  datatype LeverException = LeverException(code: int, message: string, endUser: map<string, Value>)

  /**
   * `LeverException(code, message, end_user)`: the `end_user` argument is
   * defaulted and then dropped; the stored dictionary is built from the message.
   */
  function NewLeverException(code: int, message: string, endUser: Option<map<string, Value>>): (x: LeverException)
    ensures x.code == code && x.message == message
  {
    var _ := if endUser.None? then map[] else endUser.value;
    LeverException(code, message, map["message" := Str(message)])
  }

  /** Whatever detail an except clause supplies, the user sees only the message. */
  lemma EndUserIsMessageOnly(code: int, message: string, d1: Option<map<string, Value>>, d2: Option<map<string, Value>>)
    ensures NewLeverException(code, message, d1) == NewLeverException(code, message, d2)
    ensures NewLeverException(code, message, d1).endUser.Keys == {"message"}
    ensures NewLeverException(code, message, d1).endUser["message"] == Str(message)
  {
  }

  /** How one request ends at the dispatch boundary. */
  datatype Outcome =
    | Respond(body: Value)
    | Raised(exc: LeverException)   // raise LeverException, ret
    | Reraised(error: Exc)          // the bare `raise`

  /** The try/except around the handler call in dispatch_request. */
  function Settle(r: Result<Value>): (o: Outcome)
    ensures r.Ok? <==> o.Respond?
    ensures r.Ok? ==> o.body == r.value
    ensures r.Err? ==> (o.Reraised? <==> Classify(r.error).None?)
    ensures o.Reraised? ==> o.error == r.error
    ensures o.Raised? ==> o.exc.code in {400, 402, 403, 404, 409}
    ensures o.Raised? ==> o.exc.endUser == map["message" := Str(o.exc.message)]
    ensures o.Raised? ==>
      && r.Err? && Classify(r.error).Some?
      && o.exc.code == Classify(r.error).value.code
      && o.exc.message == Classify(r.error).value.message
  {
    match r
    case Ok(v) => Respond(v)
    case Err(e) =>
      match Classify(e)
      case None => Reraised(e)
      case Some(h) => Raised(NewLeverException(h.code, h.message, h.detail))
  }
}
