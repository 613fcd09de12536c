/**
 * The `API` resource view: the request parameters it pops from, the verb
 * handlers `get`, `post`, `patch`, `put` and `delete`, pagination, and
 * `dispatch_request`, which routes a verb to its handler and turns the
 * handler's failure into a `LeverException`.  The database session is a
 * separate object whose pending changes a commit flushes.
 */
module Api {
  import opened Json
  import opened Errors
  import opened Wrappers
  import opened OperatorTable
  import opened Queries
  import opened Resources
  import opened Joined
  import opened JoinedProperties
  import opened Capabilities

  // ---------------------------------------------------------------- session

  /** A change the session holds until the next commit. */
  datatype Change =
    | Assign(target: Obj, key: string, val: Value) // setattr(obj, key, val)
    | Remove(target: Obj)                          // session.delete(obj)

  /** The database session: changes accumulate and `commit` flushes them. */
  class Session {
    var pending: seq<Change>
    var committed: seq<Change>
    var commits: nat

    constructor ()
      ensures pending == [] && committed == [] && commits == 0
    {
      pending := [];
      committed := [];
      commits := 0;
    }

    /** An object's change becomes part of the unit of work. */
    method Record(c: Change)
      modifies this
      ensures pending == old(pending) + [c]
      ensures committed == old(committed) && commits == old(commits)
    {
      pending := pending + [c];
    }

    /** `session.commit()` */
    method Commit()
      modifies this
      ensures committed == old(committed) + old(pending) && pending == []
      ensures commits == old(commits) + 1
    {
      committed := committed + pending;
      pending := [];
      commits := commits + 1;
    }
  }

  /** One assignment per key, in iteration order. */
  function Assigns(o: Obj, m: map<string, Value>, keys: seq<string>): (cs: seq<Change>)
    requires forall i :: 0 <= i < |keys| ==> keys[i] in m
    ensures |cs| == |keys|
    ensures forall i :: 0 <= i < |keys| ==> cs[i] == Assign(o, keys[i], m[keys[i]])
  {
    if keys == [] then [] else [Assign(o, keys[0], m[keys[0]])] + Assigns(o, m, keys[1..])
  }

  // ------------------------------------------------------ request values

  /** The message for a mutating request whose body holds no values. */
  function EmptyBodyMsg(what: string): string {
    "To " + what + ", values must be specified"
  }

  /**
   * `self.params = request.get_json(silent=True)` followed by `if not
   * self.params` and the first `pop`: only a non-empty mapping gets through.
   */
  function BodyParams(body: Value, what: string): (r: Result<map<string, Value>>)
    ensures !Truthy(body) <==> r == Err(APISyntaxError(EmptyBodyMsg(what)))
    ensures r.Ok? <==> body.Dict? && body.entries != map[]
    ensures r.Ok? ==> r.value == body.entries
    ensures Truthy(body) && !body.Dict? ==> r == Err(if body.List? then TypeError else AttributeError)
  {
    if !Truthy(body) then Err(APISyntaxError(EmptyBodyMsg(what)))
    else
      match body
      case Dict(m) => Ok(m)
      case List(_) => Err(TypeError)     // list.pop with a string argument
      case _ => Err(AttributeError)      // a string, number or boolean has no pop
  }

  /** The query string as parameters: every value a string. */
  function QueryParams(args: map<string, string>): map<string, Value> {
    map k | k in args :: Str(args[k])
  }

  /** The join profile a GET names, `standard_join` by default. */
  function JoinName(args: map<string, string>): string {
    if "join_prof" in args then args["join_prof"] else DefaultProfile
  }

  /** `self.model.query.filter(self.pkey == pkey)` */
  function PkeyQuery(pkeyVal: string, pkey: Value): Query {
    Query([Filter(Criterion(Eq, [Column(pkeyVal), Literal(pkey)]))])
  }

  /** What `get_obj` finds for a popped primary key: nothing for a falsy key, else `one()`. */
  function Lookup(model: Model, pkeyVal: string, pkey: Value): (r: Result<Option<Obj>>)
    ensures r == Ok(None) <==> !Truthy(pkey)
    ensures r.Ok? && r.value.Some? ==> model.one(PkeyQuery(pkeyVal, pkey)) == Row(r.value.value)
    ensures r.Err? ==> r.error in {AttributeError, NoResultFound, MultipleResultsFound}
    ensures Truthy(pkey) && pkeyVal !in model.fields ==> r == Err(AttributeError)
    ensures Truthy(pkey) && pkeyVal in model.fields ==>
      var row := model.one(PkeyQuery(pkeyVal, pkey));
      && (row.Row? ==> r == Ok(Some(row.obj)))
      && (row.NoRow? ==> r == Err(NoResultFound))
      && (row.ManyRows? ==> r == Err(MultipleResultsFound))
  {
    if !Truthy(pkey) then Ok(None)
    else if pkeyVal !in model.fields then Err(AttributeError)   // the pkey property
    else
      var o :- OneRow(model.one(PkeyQuery(pkeyVal, pkey)));
      Ok(Some(o))
  }

  // -------------------------------------------------------------- replies

  /** `jsonify(success=True)` */
  const SuccessReply: Value := Dict(map["success" := Bool(true)])

  /** `jsonify(success=True, objects=...)` */
  function ObjectsReply(objects: seq<Value>): Value {
    Dict(map["success" := Bool(true), "objects" := List(objects)])
  }

  function ViewDenied(join: string): string {
    "Can't view that object with join " + join
  }

  /** How `patch` turns an action's return value into the reply. */
  function PatchReply(ret: Value): (r: Result<map<string, Value>>)
    ensures ret.Null? || ret == Bool(true) ==> r == Ok(map["success" := Bool(true)])
    ensures ret == Bool(false) ==> r == Ok(map["success" := Bool(false)])
    ensures ret.Dict? ==> && r.Ok?
                          && r.value.Keys == {"success"} + ret.entries.Keys
                          && (forall k :: k in ret.entries ==> r.value[k] == ret.entries[k])
                          && ("success" !in ret.entries ==> r.value["success"] == Bool(true))
    ensures ret.Int? ==> r == Err(TypeError)
  {
    var retval := map["success" := Bool(true)];
    match ret
    case Null => Ok(retval)
    case Bool(b) => Ok(map["success" := Bool(b)])
    case Dict(m) => Ok(retval + m)                // retval.update(ret)
    case Int(_) => Err(TypeError)                 // a number is not iterable
    case Str(s) => if s == "" then Ok(retval) else Err(OtherError("ValueError"))
    case List(xs) => if xs == [] then Ok(retval) else Err(OtherError("ValueError"))
  }

  // ------------------------------------------------------------ pagination

  /**
   * The page size a `pg_size` value asks for.  Under Python 2 ordering a
   * value that is not a number sorts above every number, so `min` with the
   * maximum ignores it, exactly as if no size had been asked for.
   */
  function RequestedSize(v: Value): Option<int> {
    match v
    case Int(i) => Some(i)
    case Bool(b) => Some(if b then 1 else 0)
    case _ => None
  }

  /** `page - 1` needs a number; anything else raises TypeError. */
  function PageNumber(v: Value): Result<int> {
    match v
    case Int(i) => Ok(i)
    case Bool(b) => Ok(if b then 1 else 0)
    case _ => Err(TypeError)
  }

  /**
   * `paginate` on the values of `pg_size` and `pg`: offset and limit, the
   * size clamped to `max_pg_size`.
   */
  function PaginateValues(q: Query, size: Value, page: Value, maxPgSize: Option<int>): (r: Result<Query>)
    ensures r.Err? ==> r.error == TypeError
    ensures size.Null? && maxPgSize.None? ==> r == Ok(q)
    ensures !size.Null? && maxPgSize.None? ==> r == Err(TypeError)
    ensures maxPgSize.Some? ==> (r.Ok? <==> PageNumber(page).Ok?)
    ensures r.Ok? && maxPgSize.Some? ==>
      && |r.value.steps| == |q.steps| + 2
      && r.value.steps[..|q.steps|] == q.steps
      && r.value.steps[|q.steps| + 1].Limit?
    ensures r.Ok? && maxPgSize.Some? ==>
      var limit := r.value.steps[|q.steps| + 1].n;
      && r.value.steps[|q.steps|] == Offset((PageNumber(page).value - 1) * limit)
      && limit <= maxPgSize.value
      && (RequestedSize(size).Some? && RequestedSize(size).value <= maxPgSize.value ==> limit == RequestedSize(size).value)
      && (RequestedSize(size).None? ==> limit == maxPgSize.value)
  {
    if size.Null? && maxPgSize.None? then Ok(q)
    else if maxPgSize.None? then Err(TypeError)     // min(pg_size, None) is None
    else
      var pg :- PageNumber(page);
      Queries.Paginate(q, RequestedSize(size), maxPgSize, Some(pg))
  }

  /** `int(s)` for an optional minus sign followed by decimal digits. */
  function ParseInt(s: string): Option<int> {
    if IsDigits(s) then Some(DigitsValue(s))
    else if |s| > 1 && s[0] == '-' && IsDigits(s[1..]) then Some(-(DigitsValue(s[1..]) as int))
    else None
  }

  predicate IsDigits(s: string) {
    |s| > 0 && forall i :: 0 <= i < |s| ==> '0' <= s[i] <= '9'
  }

  function DigitsValue(s: string): nat
    requires IsDigits(s)
    decreases |s|
  {
    var last := (s[|s| - 1] as int) - ('0' as int);
    if |s| == 1 then last else DigitsValue(s[..|s| - 1]) * 10 + last
  }

  /** A parameter holding decimal text, read as the number it spells. */
  function Numeric(v: Value): Value {
    if v.Str? && ParseInt(v.s).Some? then Int(ParseInt(v.s).value) else v
  }

  /** Decimal text parses back to the number that printed it. */
  lemma ParseIntToString(i: int)
    ensures ParseInt(IntToString(i)) == Some(i)
  {
    if i < 0 {
      DigitsOfNat(-i);
      var s := IntToString(i);
      assert s == "-" + IntToString(-i);
      assert s[1..] == IntToString(-i);
      assert !IsDigits(s) by { assert s[0] == '-'; }
    } else {
      DigitsOfNat(i);
    }
  }

  lemma {:induction false} DigitsOfNat(n: nat)
    ensures IsDigits(IntToString(n)) && DigitsValue(IntToString(n)) == n
    decreases n
  {
    var s := IntToString(n);
    if n < 10 {
      assert s == [Digit(n)];
      DigitChar(n);
    } else {
      DigitsOfNat(n / 10);
      DigitChar(n % 10);
      var front := IntToString(n / 10);
      assert s == front + [Digit(n % 10)];
      assert s[..|s| - 1] == front;
      assert forall i :: 0 <= i < |s| ==> '0' <= s[i] <= '9' by {
        forall i | 0 <= i < |s|
          ensures '0' <= s[i] <= '9'
        {
          if i < |front| {
            assert s[i] == front[i];
          }
        }
      }
    }
  }

  lemma DigitChar(d: int)
    requires 0 <= d < 10
    ensures '0' <= Digit(d) <= '9' && (Digit(d) as int) - ('0' as int) == d
  {
    assert "0123456789"[0] == '0' && "0123456789"[1] == '1' && "0123456789"[2] == '2';
    assert "0123456789"[3] == '3' && "0123456789"[4] == '4' && "0123456789"[5] == '5';
    assert "0123456789"[6] == '6' && "0123456789"[7] == '7' && "0123456789"[8] == '8';
    assert "0123456789"[9] == '9';
  }

  /**
   * As written, the query string's text reaches `paginate` unconverted: a
   * page number cannot be subtracted from, and a page size sorts above
   * every number, so `min` never picks it.
   */
  lemma PageTextAsWritten(q: Query)
    ensures PaginateValues(q, Null, Str("2"), Some(100)) == Err(TypeError)
    ensures Classify(TypeError).None?
    ensures PaginateValues(q, Str("10"), Int(1), Some(100)) == Ok(Query(q.steps + [Offset(0), Limit(100)]))
  {
    ClassifyUnhandled(TypeError);
  }

  /** Read as numbers, a page and a page size in the query string select their window. */
  lemma PageTextRead(q: Query, page: int, size: int, maxPgSize: int)
    requires size <= maxPgSize
    ensures PaginateValues(q, Numeric(Str(IntToString(size))), Numeric(Str(IntToString(page))), Some(maxPgSize))
         == Ok(Query(q.steps + [Offset((page - 1) * size), Limit(size)]))
  {
    ParseIntToString(size);
    ParseIntToString(page);
  }

  // ----------------------------------------------------------------- verbs

  /** The HTTP verbs a request can carry. */
  datatype Verb = GET | HEAD | POST | PUT | PATCH | DELETE | Other(name: string)

  datatype Handler = GetHandler | PostHandler | PutHandler | PatchHandler | DeleteHandler

  /** `getattr(self, method.lower(), None)`, with HEAD falling back to `get`. */
  function Route(v: Verb): (h: Option<Handler>)
    ensures h.None? <==> v.Other?
    ensures h == Some(GetHandler) <==> v == GET || v == HEAD
  {
    match v
    case GET => Some(GetHandler)
    case HEAD => Some(GetHandler)
    case POST => Some(PostHandler)
    case PUT => Some(PutHandler)
    case PATCH => Some(PatchHandler)
    case DELETE => Some(DeleteHandler)
    case Other(_) => None
  }

  /** One request as the handlers see it. */
  datatype Request = Request(verb: Verb, args: map<string, string>, body: Value)

  function UnimplementedMsg(v: Verb): string
    requires v.Other?
  {
    "Unimplemented method '" + v.name + "'"
  }

  /** The arguments a create receives besides `user`. */
  function CreateArgs(m: map<string, Value>): map<string, Value> {
    m - {"__username", "__user_id", "user"}
  }

  /** A create request on behalf of another user names `__user_id` or `__username`. */
  predicate OnBehalf(m: map<string, Value>) {
    Truthy(Get(m, "__user_id", Null)) || Truthy(Get(m, "__username", Null))
  }

  /** The lookup of the user a create on behalf names: by id, then by username. */
  function BehalfQuery(m: map<string, Value>): Query {
    var userid := Get(m, "__user_id", Null);
    var username := Get(m, "__username", Null);
    Query((if Truthy(userid) then [FilterBy("id", userid)] else [])
          + (if Truthy(username) then [FilterBy("username", username)] else []))
  }

  const CreateArgsMsg := "Wrong number of arguments supplied for create."

  const NoActionTargetMsg := "Could not find any object to perform an action on"

  function ActionArgsMsg(action: string): string {
    "Wrong number of arguments supplied for action " + action + "."
  }

  function EditDenied(key: string, typeName: string): string {
    "Can't edit key " + key + " on type " + typeName
  }

  /** How `patch` answers once the action has been invoked. */
  function ActionReply(call: Call<Value>, action: string): (r: Result<Value>)
    ensures call.WrongArgs? ==> r == Err(APISyntaxError(ActionArgsMsg(action)))
    ensures call.Raised? ==> r == Err(call.error)
    ensures r.Ok? <==> call.Returned? && PatchReply(call.value).Ok?
    ensures r.Ok? ==> r.value == Dict(PatchReply(call.value).value)
  {
    match call
    case WrongArgs => Err(APISyntaxError(ActionArgsMsg(action)))
    case Raised(e) => Err(e)
    case Returned(v) =>
      var reply :- PatchReply(v);
      Ok(Dict(reply))
  }

  /**
   * The position of the first key whose `edit_<key>` is refused, or the
   * length of `keys` when every key is granted.
   */
  function FirstDenied(o: Obj, keys: seq<string>): (i: nat)
    ensures i <= |keys|
    ensures forall j :: 0 <= j < i ==> o.can(Edit(keys[j]))
    ensures i < |keys| ==> !o.can(Edit(keys[i]))
  {
    if keys == [] || !o.can(Edit(keys[0])) then 0
    else
      var rest := FirstDenied(o, keys[1..]);
      assert forall j :: 1 <= j < 1 + rest ==> keys[j] == keys[1..][j - 1];
      1 + rest
  }

  /** The two properties of `FirstDenied` pin its position down. */
  lemma FirstDeniedAt(o: Obj, keys: seq<string>, i: nat)
    requires i <= |keys|
    requires forall j :: 0 <= j < i ==> o.can(Edit(keys[j]))
    requires i < |keys| ==> !o.can(Edit(keys[i]))
    ensures FirstDenied(o, keys) == i
  {
  }

  /** The resource view for one model. */
  class Api {
    const model: Model
    const maxPgSize: Option<int>   // max_pg_size
    const pkeyVal: string          // pkey_val
    const decode: Decoder          // json.loads
    const order: KeyOrder          // dictionary iteration order
    const session: Session
    var params: map<string, Value>

    ghost predicate Valid() {
      ValidOrder(order)
    }

    constructor (model: Model, maxPgSize: Option<int>, pkeyVal: string, decode: Decoder, order: KeyOrder, session: Session)
      requires ValidOrder(order)
      ensures this.model == model && this.maxPgSize == maxPgSize && this.pkeyVal == pkeyVal
      ensures this.decode == decode && this.order == order && this.session == session
      ensures params == map[] && Valid()
    {
      this.model := model;
      this.maxPgSize := maxPgSize;
      this.pkeyVal := pkeyVal;
      this.decode := decode;
      this.order := order;
      this.session := session;
      params := map[];
    }

    // ------------------------------------------------ what each verb answers

    /** The rows the list branch of `get` finds for the parameters `p`. */
    function Listing(p: map<string, Value>): (r: Result<seq<Obj>>)
      ensures r.Err? ==> !r.error.AssertionError?
    {
      var q :- Queries.Search(model.fields, decode, order, p, Query([]));
      if Truthy(Json.Get(p, "__one", Null)) then
        var row :- OneRow(model.one(q));
        Ok([row])
      else
        var page :- PaginateValues(q, Numeric(Json.Get(p, "pg_size", Null)), Numeric(Json.Get(p, "pg", Int(1))), maxPgSize);
        Ok(model.rows(page))
    }

    /** Objects shown with profile `join`: each must grant `view_<join>`, then all are serialized. */
    function Shown(rows: seq<Obj>, join: string): (r: Result<Value>)
      ensures r.Ok? <==> (forall i :: 0 <= i < |rows| ==> rows[i].can(View(join))) && JoinList(rows, Str(join), order).Ok?
      ensures (exists i :: 0 <= i < |rows| && !rows[i].can(View(join))) ==> r == Err(AssertionError(ViewDenied(join)))
      ensures r.Ok? ==> r.value == ObjectsReply(JoinList(rows, Str(join), order).value)
      ensures r.Err? ==> r.error == AssertionError(ViewDenied(join)) || SerializationError(r.error)
    {
      JoinListErrors(rows, Str(join), order);
      if exists i :: 0 <= i < |rows| && !rows[i].can(View(join)) then Err(AssertionError(ViewDenied(join)))
      else
        var vs :- JoinList(rows, Str(join), order);
        Ok(ObjectsReply(vs))
    }

    /** What `get` answers for the query-string arguments `args`. */
    function GetResult(args: map<string, string>): (r: Result<Value>)
      ensures var j := JoinName(args);
        var p := QueryParams(args) - {"join_prof"};
        var found := Lookup(model, pkeyVal, Json.Get(p, pkeyVal, Null));
        && (found.Err? ==> r == Err(found.error))
        && (found.Ok? && found.value.Some? ==>
              var x := found.value.value;
              && (r.Ok? <==> x.can(View(j)) && JoinObj(x, Str(j), order).Ok?)
              && (r.Ok? ==> r.value == ObjectsReply([JoinObj(x, Str(j), order).value]))
              && (!x.can(View(j)) ==> r == Err(AssertionError(ViewDenied(j))))
              && (x.can(View(j)) && JoinObj(x, Str(j), order).Err? ==> r == Err(JoinObj(x, Str(j), order).error)))
        && (found == Ok(None) ==>
              var rows := Listing(p - {pkeyVal});
              && (rows.Err? ==> r == Err(rows.error))
              && (rows.Ok? ==> r == Shown(rows.value, j)))
      ensures r.Err? && r.error.AssertionError? ==> r.error == AssertionError(ViewDenied(JoinName(args)))
    {
      var join := JoinName(args);
      var p := QueryParams(args) - {"join_prof"};
      var found :- Lookup(model, pkeyVal, Json.Get(p, pkeyVal, Null));
      if found.Some? then
        JoinListSingle(found.value, Str(join), order);
        Shown([found.value], join)
      else
        var rows :- Listing(p - {pkeyVal});
        Shown(rows, join)
    }

    /** What `post` answers for the body `body`, created as `user`. */
    function PostResult(body: Value, user: Obj): (r: Result<Value>)
      ensures BodyParams(body, "create").Err? ==> r == Err(BodyParams(body, "create").error)
      ensures BodyParams(body, "create").Ok? && OnBehalf(body.entries) ==>
        var u := OneRow(model.one(BehalfQuery(body.entries)));
        r == Err(if u.Err? then u.error else TypeError)
      ensures BodyParams(body, "create").Ok? && !OnBehalf(body.entries) && !model.canCls(ClassCreate) ==>
        r == Err(AssertionError("Cant create that object"))
      ensures BodyParams(body, "create").Ok? && !OnBehalf(body.entries) && model.canCls(ClassCreate) ==>
        var created := model.create(CreateArgs(body.entries), user);
        && (created.WrongArgs? ==> r == Err(APISyntaxError(CreateArgsMsg)))
        && (created.Raised? ==> r == Err(created.error))
        && (created == Returned(None) ==> r == Ok(SuccessReply))
        && (created.Returned? && created.value.Some? ==>
              && (r.Ok? <==> JoinObj(created.value.value, Str(DefaultProfile), order).Ok?)
              && (r.Ok? ==> r.value == ObjectsReply([JoinObj(created.value.value, Str(DefaultProfile), order).value])))
    {
      var m :- BodyParams(body, "create");
      if OnBehalf(m) then
        var u :- OneRow(model.one(BehalfQuery(m)));
        Err(TypeError)   // can_cls does not accept the params= keyword it is called with
      else if !model.canCls(ClassCreate) then Err(AssertionError("Cant create that object"))
      else CreateReply(model.create(CreateArgs(m), user))
    }

    /** How `post` answers once the create has run. */
    function CreateReply(created: Call<Option<Obj>>): Result<Value> {
      match created
      case WrongArgs => Err(APISyntaxError(CreateArgsMsg))
      case Raised(e) => Err(e)
      case Returned(m) =>
        if m.None? then Ok(SuccessReply)
        else
          var v :- JoinObj(m.value, Str(DefaultProfile), order);
          Ok(ObjectsReply([v]))
    }

    /** What `patch` answers for the body `body`. */
    function PatchResult(body: Value): (r: Result<Value>)
      ensures BodyParams(body, "run an action").Err? ==> r == Err(BodyParams(body, "run an action").error)
      ensures BodyParams(body, "run an action").Ok? && "__action" !in body.entries ==> r == Err(KeyError("__action"))
      ensures BodyParams(body, "run an action").Ok? && "__action" in body.entries &&
              Json.Get(body.entries, "__cls", Null).Null? ==>
        var a := body.entries["__action"];
        var args := body.entries - {"__action", "__cls"};
        var found := Lookup(model, pkeyVal, Json.Get(args, pkeyVal, Null));
        && (found.Err? ==> r == Err(found.error))
        && (found == Ok(None) ==> r == Err(APINotFound(NoActionTargetMsg)))
        && (found.Ok? && found.value.Some? ==>
              var x := found.value.value;
              && (!a.Str? ==> r == Err(TypeError))
              && (a.Str? && !x.can(Action(a.s)) ==> r == Err(AssertionError("Cant perform action " + a.s)))
              && (a.Str? && x.can(Action(a.s)) ==> r == ActionReply(x.act(a.s, args - {pkeyVal}), a.s)))
      ensures BodyParams(body, "run an action").Ok? && "__action" in body.entries &&
              !Json.Get(body.entries, "__cls", Null).Null? ==>
        var a := body.entries["__action"];
        var args := body.entries - {"__action", "__cls"};
        && (!a.Str? ==> r == Err(TypeError))
        && (a.Str? && !model.canCls(Action(a.s)) ==> r == Err(AssertionError("Can't perform cls action " + a.s)))
        && (a.Str? && model.canCls(Action(a.s)) ==> r == ActionReply(model.act(a.s, args), a.s))
    {
      var m :- BodyParams(body, "run an action");
      if "__action" !in m then Err(KeyError("__action"))
      else
        var action := m["__action"];
        var args := m - {"__action", "__cls"};
        if Json.Get(m, "__cls", Null).Null? then
          var found :- Lookup(model, pkeyVal, Json.Get(args, pkeyVal, Null));
          if found.None? then Err(APINotFound(NoActionTargetMsg))
          else if !action.Str? then Err(TypeError)   // 'action_' + a non-string
          else if !found.value.can(Action(action.s)) then Err(AssertionError("Cant perform action " + action.s))
          else ActionReply(found.value.act(action.s, args - {pkeyVal}), action.s)
        else if !action.Str? then Err(TypeError)
        else if !model.canCls(Action(action.s)) then Err(AssertionError("Can't perform cls action " + action.s))
        else ActionReply(model.act(action.s, args), action.s)
    }

    /** What `put` answers for the body `body`. */
    function PutResult(body: Value): (r: Result<Value>)
      ensures BodyParams(body, "update").Err? ==> r == Err(BodyParams(body, "update").error)
      ensures BodyParams(body, "update").Ok? ==>
        var found := Lookup(model, pkeyVal, Json.Get(body.entries, pkeyVal, Null));
        && (found.Err? ==> r == Err(found.error))
        && (found == Ok(None) ==> r == Err(APINotFound("Could not find any object to update")))
        && (found.Ok? && found.value.Some? ==>
              var x := found.value.value;
              var keys := order((body.entries - {pkeyVal}).Keys);
              && (r.Ok? <==> forall i :: 0 <= i < |keys| ==> x.can(Edit(keys[i])))
              && (r.Ok? ==> r.value == SuccessReply)
              && (r.Err? ==> FirstDenied(x, keys) < |keys|
                             && r == Err(AssertionError(EditDenied(keys[FirstDenied(x, keys)], model.name)))))
    {
      var m :- BodyParams(body, "update");
      var found :- Lookup(model, pkeyVal, Json.Get(m, pkeyVal, Null));
      if found.None? then Err(APINotFound("Could not find any object to update"))
      else
        var keys := order((m - {pkeyVal}).Keys);
        var i := FirstDenied(found.value, keys);
        if i < |keys| then Err(AssertionError(EditDenied(keys[i], model.name)))
        else Ok(SuccessReply)
    }

    /** What `delete` answers for the body `body`. */
    function DeleteResult(body: Value): (r: Result<Value>)
      ensures BodyParams(body, "delete").Err? ==> r == Err(BodyParams(body, "delete").error)
      ensures BodyParams(body, "delete").Ok? ==>
        var found := Lookup(model, pkeyVal, Json.Get(body.entries, pkeyVal, Null));
        && (found.Err? ==> r == Err(found.error))
        && (found == Ok(None) ==> r == Err(APINotFound("Could not find any object to delete")))
        && (found.Ok? && found.value.Some? ==>
              && (r.Ok? <==> found.value.value.can(DeleteCap))
              && (r.Ok? ==> r.value == SuccessReply)
              && (r.Err? ==> r == Err(AssertionError("Can't delete that object"))))
    {
      var m :- BodyParams(body, "delete");
      var found :- Lookup(model, pkeyVal, Json.Get(m, pkeyVal, Null));
      if found.None? then Err(APINotFound("Could not find any object to delete"))
      else if !found.value.can(DeleteCap) then Err(AssertionError("Can't delete that object"))
      else Ok(SuccessReply)
    }

    /** The handler a routed request runs; HEAD falls back to `get`. */
    function Handle(req: Request, user: Obj): (r: Result<Value>)
      requires Route(req.verb).Some?
      ensures req.verb == GET || req.verb == HEAD ==> r == GetResult(req.args)
      ensures req.verb == POST ==> r == PostResult(req.body, user)
      ensures req.verb == PATCH ==> r == PatchResult(req.body)
      ensures req.verb == PUT ==> r == PutResult(req.body)
      ensures req.verb == DELETE ==> r == DeleteResult(req.body)
    {
      match Route(req.verb).value
      case GetHandler => GetResult(req.args)
      case PostHandler => PostResult(req.body, user)
      case PatchHandler => PatchResult(req.body)
      case PutHandler => PutResult(req.body)
      case DeleteHandler => DeleteResult(req.body)
    }

    // ----------------------------------------------------------- operations

    /** `get_obj`: pops the primary key and looks the object up by it. */
    method GetObj() returns (r: Result<Option<Obj>>)
      modifies this
      ensures params == old(params) - {pkeyVal}
      ensures r == Lookup(model, pkeyVal, Json.Get(old(params), pkeyVal, Null))
    {
      var pkey := Json.Get(params, pkeyVal, Null);
      params := params - {pkeyVal};
      if !Truthy(pkey) {
        return Ok(None);
      }
      if pkeyVal !in model.fields {
        return Err(AttributeError);
      }
      var row := OneRow(model.one(PkeyQuery(pkeyVal, pkey)));
      if row.Err? {
        return Err(row.error);
      }
      return Ok(Some(row.value));
    }

    /** The `__filter` part of `search`. */
    method SearchFilter(query: Query) returns (r: Result<Query>)
      modifies this
      ensures params == old(params) - {"__filter"}
      ensures r == FilterStage(model.fields, decode, Json.Get(old(params), "__filter", Null), query)
    {
      var filters := Json.Get(params, "__filter", Null);
      params := params - {"__filter"};
      if !Truthy(filters) {
        return Ok(query);
      }
      var decoded := Param(decode, filters);
      if decoded.Err? {
        return Err(decoded.error);
      }
      match decoded.value
      case List(clauses) =>
        var q := query;
        for i := 0 to |clauses|
          invariant ApplyClauses(model.fields, clauses, query) == ApplyClauses(model.fields, clauses[i..], q)
        {
          assert clauses[i..][0] == clauses[i] && clauses[i..][1..] == clauses[i + 1..];
          var c := FilterClause(model.fields, clauses[i]);
          if c.Err? {
            return Err(c.error);
          }
          q := Then(q, Filter(c.value));
        }
        assert clauses[|clauses|..] == [];
        return Ok(q);
      case Dict(m) =>
        // iterating a mapping yields strings, which cannot be indexed by 'name'
        if m == map[] {
          return Ok(query);
        }
        return Err(APISyntaxError(ArgCountMsg));
      case Str(t) =>
        if t == "" {
          return Ok(query);
        }
        return Err(APISyntaxError(ArgCountMsg));
      case _ =>
        return Err(APISyntaxError(ArgCountMsg));
    }

    /** The `__order_by` part of `search`. */
    method SearchOrder(query: Query) returns (r: Result<Query>)
      modifies this
      ensures params == old(params) - {"__order_by"}
      ensures r == OrderStage(model.fields, decode, order, Json.Get(old(params), "__order_by", Null), query)
    {
      var orderBy := Json.Get(params, "__order_by", Null);
      params := params - {"__order_by"};
      if !Truthy(orderBy) {
        return Ok(query);
      }
      var decoded := Param(decode, orderBy);
      if decoded.Err? {
        return Err(decoded.error);
      }
      var iterated := Iterated(decoded.value, order);
      if iterated.Err? {
        return Err(iterated.error);
      }
      var keys := iterated.value;
      var q := query;
      for i := 0 to |keys|
        invariant ApplyOrder(model.fields, keys, query) == ApplyOrder(model.fields, keys[i..], q)
      {
        assert keys[i..][0] == keys[i] && keys[i..][1..] == keys[i + 1..];
        var step := OrderKey(model.fields, keys[i]);
        if step.Err? {
          return Err(step.error);
        }
        q := Then(q, step.value);
      }
      assert keys[|keys|..] == [];
      return Ok(q);
    }

    /** The `__filter_by` part of `search`. */
    method SearchFilterBy(query: Query) returns (r: Result<Query>)
      modifies this
      ensures params == old(params) - {"__filter_by"}
      ensures r == FilterByStage(model.fields, decode, order, Json.Get(old(params), "__filter_by", Null), query)
    {
      var filterBy := Json.Get(params, "__filter_by", Null);
      params := params - {"__filter_by"};
      if !Truthy(filterBy) {
        return Ok(query);
      }
      var decoded := Param(decode, filterBy);
      if decoded.Err? {
        return Err(decoded.error);
      }
      if !decoded.value.Dict? {
        return Err(AttributeError);
      }
      var m := decoded.value.entries;
      var keys := order(m.Keys);
      var q := query;
      for i := 0 to |keys|
        invariant ApplyFilterBy(model.fields, m, keys, query) == ApplyFilterBy(model.fields, m, keys[i..], q)
      {
        assert keys[i..][0] == keys[i] && keys[i..][1..] == keys[i + 1..];
        if keys[i] !in model.fields {
          return Err(APISyntaxError(FilterByMsg(keys[i])));
        }
        q := Then(q, FilterBy(keys[i], Json.Get(m, keys[i], Null)));
      }
      assert keys[|keys|..] == [];
      return Ok(q);
    }

    /**
     * `search`: pops and applies `__filter`, then `__order_by`, then
     * `__filter_by`.  A stage that fails leaves the later keys in place.
     */
    method Search(query: Query) returns (r: Result<Query>)
      modifies this
      ensures r == Queries.Search(model.fields, decode, order, old(params), query)
      ensures var first := FilterStage(model.fields, decode, Json.Get(old(params), "__filter", Null), query);
        && (first.Err? ==> params == old(params) - {"__filter"})
        && (first.Ok? && OrderStage(model.fields, decode, order, Json.Get(old(params), "__order_by", Null), first.value).Err?
            ==> params == old(params) - {"__filter", "__order_by"})
        && (first.Ok? && OrderStage(model.fields, decode, order, Json.Get(old(params), "__order_by", Null), first.value).Ok?
            ==> params == old(params) - SearchKeys)
    {
      var q1 := SearchFilter(query);
      if q1.Err? {
        return Err(q1.error);
      }
      var q2 := SearchOrder(q1.value);
      if q2.Err? {
        return Err(q2.error);
      }
      r := SearchFilterBy(q2.value);
    }

    /**
     * `paginate`: offset and limit from `pg` and `pg_size`, the size
     * clamped to `max_pg_size`.
     */
    function Paginate(q: Query): (r: Result<Query>)
      reads this
      ensures r.Err? ==> r.error == TypeError
      ensures maxPgSize.Some? ==>
        (r.Ok? <==> var pg := Json.Get(params, "pg", Int(1));
                    pg.Int? || pg.Bool? || (pg.Str? && ParseInt(pg.s).Some?))
      ensures r.Ok? && maxPgSize.Some? ==>
        && |r.value.steps| == |q.steps| + 2
        && r.value.steps[|q.steps| + 1].Limit?
        && r.value.steps[|q.steps| + 1].n <= maxPgSize.value
    {
      PaginateValues(q, Numeric(Json.Get(params, "pg_size", Null)), Numeric(Json.Get(params, "pg", Int(1))), maxPgSize)
    }

    /** `paginate` as written: the parameters are used as they arrive. */
    function PaginateAsWritten(q: Query): (r: Result<Query>)
      reads this
      ensures maxPgSize.Some? && Json.Get(params, "pg", Int(1)).Str? ==> r == Err(TypeError)
    {
      PaginateValues(q, Json.Get(params, "pg_size", Null), Json.Get(params, "pg", Int(1)), maxPgSize)
    }

    /**
     * `get`: one object by primary key, or a searched and paginated list,
     * each object checked for `view_<join>` before anything is serialized.
     */
    method Get(args: map<string, string>) returns (r: Result<Value>, ghost shown: seq<Obj>)
      requires Valid()
      modifies this
      ensures r == GetResult(args)
      ensures r.Ok? ==>
        && (forall i :: 0 <= i < |shown| ==> shown[i].can(View(JoinName(args))))
        && JoinList(shown, Str(JoinName(args)), order).Ok?
        && r.value == ObjectsReply(JoinList(shown, Str(JoinName(args)), order).value)
      ensures var p := QueryParams(args) - {"join_prof"};
        var found := Lookup(model, pkeyVal, Json.Get(p, pkeyVal, Null));
        && (found.Ok? && found.value.Some? && r.Ok? ==> shown == [found.value.value])
        && (found == Ok(None) && r.Ok? ==> Listing(p - {pkeyVal}).Ok? && shown == Listing(p - {pkeyVal}).value)
    {
      shown := [];
      params := QueryParams(args);
      var join := JoinName(args);
      params := params - {"join_prof"};
      ghost var p := params;
      var obj := GetObj();
      if obj.Err? {
        return Err(obj.error), [];
      }
      if obj.value.Some? {
        var o := obj.value.value;
        r := ShowOne(o, join);
        if r.Ok? {
          shown := [o];
        }
        return;
      }
      assert params == p - {pkeyVal};
      var listed := ListRows();
      if listed.Err? {
        return Err(listed.error), [];
      }
      var rows := listed.value;
      r := ShowAll(rows, join);
      if r.Ok? {
        shown := rows;
      }
    }

    /** The primary-key branch of `get`: one object, checked and serialized. */
    method ShowOne(o: Obj, join: string) returns (r: Result<Value>)
      ensures r == Shown([o], join)
      ensures r.Ok? <==> o.can(View(join)) && JoinObj(o, Str(join), order).Ok?
      ensures r.Ok? ==> r.value == ObjectsReply([JoinObj(o, Str(join), order).value])
      ensures !o.can(View(join)) ==> r == Err(AssertionError(ViewDenied(join)))
      ensures r.Err? ==> r.error == AssertionError(ViewDenied(join)) || SerializationError(r.error)
    {
      JoinListSingle(o, Str(join), order);
      if !o.can(View(join)) {
        return Err(AssertionError(ViewDenied(join)));
      }
      var j := GetJoined(o, Str(join), order);
      JoinObjErrors(o, Str(join), order);
      if j.Err? {
        return Err(j.error);
      }
      return Ok(ObjectsReply([j.value]));
    }

    /** The end of the list branch of `get`: every row checked, then all serialized. */
    method ShowAll(rows: seq<Obj>, join: string) returns (r: Result<Value>)
      ensures r == Shown(rows, join)
      ensures r.Ok? <==> && (forall i :: 0 <= i < |rows| ==> rows[i].can(View(join)))
                         && JoinList(rows, Str(join), order).Ok?
      ensures r.Ok? ==> r.value == ObjectsReply(JoinList(rows, Str(join), order).value)
      ensures (exists i :: 0 <= i < |rows| && !rows[i].can(View(join))) ==> r == Err(AssertionError(ViewDenied(join)))
      ensures r.Err? ==> r.error == AssertionError(ViewDenied(join)) || SerializationError(r.error)
    {
      var viewable := AllViewable(rows, join);
      if !viewable {
        return Err(AssertionError(ViewDenied(join)));
      }
      var js := GetJoinedList(rows, Str(join), order);
      JoinListErrors(rows, Str(join), order);
      if js.Err? {
        return Err(js.error);
      }
      return Ok(ObjectsReply(js.value));
    }

    /**
     * The list branch of `get`: the searched query, then either its single
     * row (`__one`) or the page `paginate` selects.
     */
    method ListRows() returns (r: Result<seq<Obj>>)
      modifies this
      ensures r == Listing(old(params))
      ensures Queries.Search(model.fields, decode, order, old(params), Query([])).Ok? ==>
        params == old(params) - SearchKeys - {"__one"}
    {
      ghost var p0 := params;
      var query := Search(Query([]));
      if query.Err? {
        return Err(query.error);
      }
      assert params == p0 - SearchKeys;
      var one := Json.Get(params, "__one", Null);
      assert one == Json.Get(p0, "__one", Null);
      params := params - {"__one"};
      if Truthy(one) {
        var row := OneRow(model.one(query.value));
        if row.Err? {
          return Err(row.error);
        }
        return Ok([row.value]);
      }
      assert Json.Get(params, "pg_size", Null) == Json.Get(p0, "pg_size", Null);
      assert Json.Get(params, "pg", Int(1)) == Json.Get(p0, "pg", Int(1));
      var page := Paginate(query.value);
      if page.Err? {
        return Err(page.error);
      }
      return Ok(model.rows(page.value));
    }

    /** The permission loop of `get`: every object must grant `view_<join>`. */
    method AllViewable(rows: seq<Obj>, join: string) returns (ok: bool)
      ensures ok <==> forall i :: 0 <= i < |rows| ==> rows[i].can(View(join))
    {
      for i := 0 to |rows|
        invariant forall j :: 0 <= j < i ==> rows[j].can(View(join))
      {
        if !rows[i].can(View(join)) {
          return false;
        }
      }
      return true;
    }

    /**
     * `post`: creates an object as the current user once `class_create` is
     * granted, commits, and serializes what the create returned.
     */
    method Post(body: Value, currentUser: Obj) returns (r: Result<Value>)
      requires Valid()
      modifies this, session
      ensures session.pending == (if session.commits == old(session.commits) then old(session.pending) else [])
      ensures !Truthy(body) ==> r == Err(APISyntaxError(EmptyBodyMsg("create")))
      ensures session.commits == old(session.commits) + 1 <==>
        && BodyParams(body, "create").Ok?
        && !OnBehalf(body.entries)
        && model.canCls(ClassCreate)
        && model.create(CreateArgs(body.entries), currentUser).Returned?
      ensures session.commits == old(session.commits) ==> session.committed == old(session.committed)
      ensures session.commits != old(session.commits) ==>
        && session.commits == old(session.commits) + 1
        && session.committed == old(session.committed) + old(session.pending)
      ensures r.Ok? ==> session.commits == old(session.commits) + 1
      ensures r == PostResult(body, currentUser)
    {
      var p := BodyParams(body, "create");
      params := if body.Dict? then body.entries else map[];
      if p.Err? {
        return Err(p.error);
      }
      var username := Json.Get(params, "__username", Null);
      var userid := Json.Get(params, "__user_id", Null);
      params := params - {"__username", "__user_id"};
      if Truthy(userid) || Truthy(username) {
        var user := OneRow(model.one(BehalfQuery(body.entries)));
        if user.Err? {
          return Err(user.error);
        }
        // can_cls does not accept the params= keyword it is called with
        return Err(TypeError);
      }
      params := params - {"user"};
      assert params == CreateArgs(body.entries);
      if !model.canCls(ClassCreate) {
        return Err(AssertionError("Cant create that object"));
      }
      var created := model.create(params, currentUser);
      match created
      case WrongArgs =>
        return Err(APISyntaxError(CreateArgsMsg));
      case Raised(e) =>
        return Err(e);
      case Returned(m) =>
        session.Commit();
        if m.None? {
          return Ok(SuccessReply);
        }
        var j := GetJoined(m.value, Str(DefaultProfile), order);
        if j.Err? {
          return Err(j.error);
        }
        return Ok(ObjectsReply([j.value]));
    }

    /**
     * `patch`: runs the named action on the object the primary key finds,
     * or on the class when `__cls` is given, after the matching capability check.
     */
    method Patch(body: Value) returns (r: Result<Value>, ghost target: Option<Obj>, ghost ret: Value)
      requires Valid()
      modifies this, session
      ensures r == PatchResult(body)
      ensures session.commits == old(session.commits) + (if r.Ok? then 1 else 0)
      ensures r.Ok? ==> session.committed == old(session.committed) + old(session.pending) && session.pending == []
      ensures r.Err? ==> session.committed == old(session.committed) && session.pending == old(session.pending)
      ensures r.Ok? ==>
        && body.Dict? && "__action" in body.entries && body.entries["__action"].Str?
        && var a := body.entries["__action"].s;
           var cls := Json.Get(body.entries, "__cls", Null);
           && (cls.Null? ==> && target.Some?
                              && Lookup(model, pkeyVal, Json.Get(body.entries, pkeyVal, Null)) == Ok(target)
                              && target.value.can(Action(a))
                              && target.value.act(a, body.entries - {"__action", "__cls", pkeyVal}) == Returned(ret))
           && (!cls.Null? ==> && target.None?
                               && model.canCls(Action(a))
                               && model.act(a, body.entries - {"__action", "__cls"}) == Returned(ret))
           && PatchReply(ret).Ok?
           && r.value == Dict(PatchReply(ret).value)
    {
      target, ret := None, Null;
      var p := BodyParams(body, "run an action");
      params := if body.Dict? then body.entries else map[];
      if p.Err? {
        return Err(p.error), None, Null;
      }
      if "__action" !in params {
        return Err(KeyError("__action")), None, Null;
      }
      var action := params["__action"];
      params := params - {"__action"};
      var cls := Json.Get(params, "__cls", Null);
      params := params - {"__cls"};
      assert params == body.entries - {"__action", "__cls"};
      var call: Call<Value>;
      if cls.Null? {
        var obj := GetObj();
        assert params == body.entries - {"__action", "__cls", pkeyVal};
        if obj.Err? {
          return Err(obj.error), None, Null;
        }
        if obj.value.None? {
          return Err(APINotFound(NoActionTargetMsg)), None, Null;
        }
        if !action.Str? {
          return Err(TypeError), None, Null;   // 'action_' + a non-string
        }
        if !obj.value.value.can(Action(action.s)) {
          return Err(AssertionError("Cant perform action " + action.s)), None, Null;
        }
        target := obj.value;
        call := obj.value.value.act(action.s, params);
      } else {
        if !action.Str? {
          return Err(TypeError), None, Null;
        }
        if !model.canCls(Action(action.s)) {
          return Err(AssertionError("Can't perform cls action " + action.s)), None, Null;
        }
        call := model.act(action.s, params);
      }
      r := ActionReply(call, action.s);
      if r.Err? {
        return r, None, Null;
      }
      session.Commit();
      return r, target, call.value;
    }

    /**
     * `put`: checks `edit_<key>` for each key before assigning it, and
     * commits once, after every key has been checked and assigned.
     */
    method Put(body: Value) returns (r: Result<Value>, ghost target: Option<Obj>)
      requires Valid()
      modifies this, session
      ensures r == PutResult(body)
      ensures BodyParams(body, "update").Ok? && Lookup(model, pkeyVal, Json.Get(body.entries, pkeyVal, Null)).Ok? ==>
        target == Lookup(model, pkeyVal, Json.Get(body.entries, pkeyVal, Null)).value
      ensures target.Some? ==>
        && BodyParams(body, "update").Ok?
        && Lookup(model, pkeyVal, Json.Get(body.entries, pkeyVal, Null)) == Ok(target)
      ensures target.Some? ==>
        (r.Ok? <==> forall k :: k in body.entries - {pkeyVal} ==> target.value.can(Edit(k)))
      ensures r.Ok? ==>
        && target.Some?
        && var m := body.entries - {pkeyVal};
           && (forall k :: k in m ==> target.value.can(Edit(k)))
           && session.committed == old(session.committed) + old(session.pending) + Assigns(target.value, m, order(m.Keys))
           && session.pending == []
           && session.commits == old(session.commits) + 1
           && r.value == SuccessReply
      ensures r.Err? ==> session.committed == old(session.committed) && session.commits == old(session.commits)
      ensures r.Err? ==>
        && |old(session.pending)| <= |session.pending|
        && session.pending[..|old(session.pending)|] == old(session.pending)
        && forall i :: |old(session.pending)| <= i < |session.pending| ==>
             && target.Some? && session.pending[i].Assign?
             && session.pending[i].target == target.value
             && session.pending[i].key != pkeyVal
             && target.value.can(Edit(session.pending[i].key))
    {
      target := None;
      var p := BodyParams(body, "update");
      params := if body.Dict? then body.entries else map[];
      if p.Err? {
        return Err(p.error), None;
      }
      var obj := GetObj();
      if obj.Err? {
        return Err(obj.error), None;
      }
      if obj.value.None? {
        return Err(APINotFound("Could not find any object to update")), None;
      }
      target := obj.value;
      var m := params;
      assert m == body.entries - {pkeyVal};
      r := UpdateFields(obj.value.value, m);
    }

    /**
     * The field loop of `put` and the commit after it: the keys of `m` are
     * checked and assigned in iteration order, and one commit follows when
     * every key was granted.
     */
    method UpdateFields(o: Obj, m: map<string, Value>) returns (r: Result<Value>)
      requires Valid()
      modifies session
      ensures var keys := order(m.Keys);
        && (r.Ok? <==> FirstDenied(o, keys) == |keys|)
        && (r.Ok? ==> r.value == SuccessReply)
        && (r.Err? ==> FirstDenied(o, keys) < |keys|
                       && r == Err(AssertionError(EditDenied(keys[FirstDenied(o, keys)], model.name))))
      ensures r.Ok? <==> forall k :: k in m ==> o.can(Edit(k))
      ensures r.Ok? ==>
        && session.committed == old(session.committed) + old(session.pending) + Assigns(o, m, order(m.Keys))
        && session.pending == []
        && session.commits == old(session.commits) + 1
      ensures r.Err? ==> session.committed == old(session.committed) && session.commits == old(session.commits)
      ensures r.Err? ==>
        && |old(session.pending)| <= |session.pending|
        && session.pending[..|old(session.pending)|] == old(session.pending)
        && forall i :: |old(session.pending)| <= i < |session.pending| ==>
             && session.pending[i].Assign?
             && session.pending[i].target == o
             && session.pending[i].key in m
             && o.can(Edit(session.pending[i].key))
    {
      var keys := order(m.Keys);
      assert Enumerates(keys, m.Keys);
      var denied := EditKeys(o, m, keys);
      FirstDeniedCovers(o, keys, m.Keys);
      if denied.Some? {
        return Err(AssertionError(EditDenied(denied.value, model.name)));
      }
      session.Commit();
      return Ok(SuccessReply);
    }

    /**
     * The loop of `put`: each key is checked for `edit_<key>` and assigned
     * before the next is looked at; the first key refused stops the loop.
     */
    method EditKeys(o: Obj, m: map<string, Value>, keys: seq<string>) returns (denied: Option<string>)
      requires forall i :: 0 <= i < |keys| ==> keys[i] in m
      modifies session
      ensures denied == if FirstDenied(o, keys) < |keys| then Some(keys[FirstDenied(o, keys)]) else None
      ensures denied.None? ==> session.pending == old(session.pending) + Assigns(o, m, keys)
      ensures && |old(session.pending)| <= |session.pending|
              && session.pending[..|old(session.pending)|] == old(session.pending)
              && forall i :: |old(session.pending)| <= i < |session.pending| ==>
                   && session.pending[i].Assign?
                   && session.pending[i].target == o
                   && session.pending[i].key in keys
                   && o.can(Edit(session.pending[i].key))
      ensures session.committed == old(session.committed) && session.commits == old(session.commits)
    {
      ghost var start := session.pending;
      var i := 0;
      while i < |keys|
        invariant i <= |keys|
        invariant session.pending == start + Assigns(o, m, keys[..i])
        invariant forall j :: 0 <= j < i ==> o.can(Edit(keys[j]))
        invariant session.committed == old(session.committed) && session.commits == old(session.commits)
      {
        if !o.can(Edit(keys[i])) {
          break;
        }
        assert keys[..i + 1] == keys[..i] + [keys[i]];
        AssignsAppend(o, m, keys[..i], keys[i]);
        session.Record(Assign(o, keys[i], m[keys[i]]));
        i := i + 1;
      }
      FirstDeniedAt(o, keys, i);
      PendingAssigns(start, o, m, keys, i);
      if i == |keys| {
        assert keys[..|keys|] == keys;
      }
      denied := if i < |keys| then Some(keys[i]) else None;
    }

    /** `delete`: removes the object the primary key finds, once `delete` is granted. */
    method Delete(body: Value) returns (r: Result<Value>, ghost target: Option<Obj>)
      requires Valid()
      modifies this, session
      ensures r == DeleteResult(body)
      ensures BodyParams(body, "delete").Ok? && Lookup(model, pkeyVal, Json.Get(body.entries, pkeyVal, Null)).Ok? ==>
        target == Lookup(model, pkeyVal, Json.Get(body.entries, pkeyVal, Null)).value
      ensures target.Some? ==>
        && BodyParams(body, "delete").Ok?
        && Lookup(model, pkeyVal, Json.Get(body.entries, pkeyVal, Null)) == Ok(target)
      ensures r.Ok? <==> target.Some? && target.value.can(DeleteCap)
      ensures r.Ok? ==>
        && session.committed == old(session.committed) + old(session.pending) + [Remove(target.value)]
        && session.pending == []
        && session.commits == old(session.commits) + 1
        && r.value == SuccessReply
      ensures r.Err? ==> && session.committed == old(session.committed)
                         && session.pending == old(session.pending)
                         && session.commits == old(session.commits)
      ensures target.Some? && !target.value.can(DeleteCap) ==> r == Err(AssertionError("Can't delete that object"))
    {
      target := None;
      var p := BodyParams(body, "delete");
      params := if body.Dict? then body.entries else map[];
      if p.Err? {
        return Err(p.error), None;
      }
      var obj := GetObj();
      if obj.Err? {
        return Err(obj.error), None;
      }
      if obj.value.None? {
        return Err(APINotFound("Could not find any object to delete")), None;
      }
      var o := obj.value.value;
      target := obj.value;
      if !o.can(DeleteCap) {
        return Err(AssertionError("Can't delete that object")), target;
      }
      session.Record(Remove(o));
      session.Commit();
      return Ok(SuccessReply), target;
    }

    /**
     * `dispatch_request`: routes the verb to its handler and settles the
     * handler's outcome; a verb without a handler fails its assertion
     * before the handler's try block.
     */
    method DispatchRequest(req: Request, currentUser: Obj) returns (o: Outcome)
      requires Valid()
      modifies this, session
      ensures Route(req.verb).None? ==> o == Reraised(AssertionError(UnimplementedMsg(req.verb)))
      ensures Route(req.verb).None? ==> session.commits == old(session.commits)
      ensures Route(req.verb).Some? ==> o == Settle(Handle(req, currentUser))
      ensures session.commits <= old(session.commits) + 1
    {
      var route := Route(req.verb);
      if route.None? {
        return Reraised(AssertionError(UnimplementedMsg(req.verb)));
      }
      var res: Result<Value>;
      ghost var shown: seq<Obj>, target: Option<Obj>, ret: Value;
      match route.value {
        case GetHandler =>
          res, shown := Get(req.args);
        case PostHandler =>
          res := Post(req.body, currentUser);
        case PatchHandler =>
          res, target, ret := Patch(req.body);
        case PutHandler =>
          res, target := Put(req.body);
        case DeleteHandler =>
          res, target := Delete(req.body);
      }
      o := Settle(res);
    }
  }

  /** How the failures the verb handlers raise themselves reach the client. */
  lemma VerbFailureResponses(what: string, msg: string)
    ensures Settle(Err(APISyntaxError(EmptyBodyMsg(what)))) ==
      Outcome.Raised(LeverException(400, EmptyBodyMsg(what), map["message" := Str(EmptyBodyMsg(what))]))
    ensures Settle(Err(APINotFound(msg))) == Outcome.Raised(LeverException(404, msg, map["message" := Str(msg)]))
    ensures var denied := "You don't have permission to do that";
      Settle(Err(AssertionError(msg))) == Outcome.Raised(LeverException(403, denied, map["message" := Str(denied)]))
    ensures var missing := "Incorrect syntax or missing key __action";
      Settle(Err(KeyError("__action"))) == Outcome.Raised(LeverException(400, missing, map["message" := Str(missing)]))
    ensures Settle(Err(TypeError)) == Reraised(TypeError)
  {
    ClassifyEngine(APISyntaxError(EmptyBodyMsg(what)));
    ClassifyEngine(APINotFound(msg));
    ClassifyEngine(AssertionError(msg));
    ClassifyEngine(KeyError("__action"));
    assert "Incorrect syntax or missing key " + "__action" == "Incorrect syntax or missing key __action";
    ClassifyUnhandled(TypeError);
  }

  /** Over an enumeration of a key set, no key is refused exactly when every key of the set is granted. */
  lemma FirstDeniedCovers(o: Obj, keys: seq<string>, s: set<string>)
    requires Enumerates(keys, s)
    ensures FirstDenied(o, keys) == |keys| <==> forall k :: k in s ==> o.can(Edit(k))
  {
    if FirstDenied(o, keys) == |keys| {
      forall k | k in s
        ensures o.can(Edit(k))
      {
        var i :| 0 <= i < |keys| && keys[i] == k;
      }
    } else {
      assert keys[FirstDenied(o, keys)] in s;
    }
  }

  /** What the loop of `put` leaves pending after checking and assigning `keys[..n]`. */
  lemma PendingAssigns(start: seq<Change>, o: Obj, m: map<string, Value>, keys: seq<string>, n: nat)
    requires n <= |keys|
    requires forall i :: 0 <= i < |keys| ==> keys[i] in m
    requires forall j :: 0 <= j < n ==> o.can(Edit(keys[j]))
    ensures var pending := start + Assigns(o, m, keys[..n]);
      && |start| <= |pending|
      && pending[..|start|] == start
      && forall i :: |start| <= i < |pending| ==>
           && pending[i].Assign?
           && pending[i].target == o
           && pending[i].key in keys
           && o.can(Edit(pending[i].key))
  {
    var pending := start + Assigns(o, m, keys[..n]);
    assert pending[..|start|] == start;
    forall i | |start| <= i < |pending|
      ensures pending[i].Assign? && pending[i].target == o && pending[i].key in keys && o.can(Edit(pending[i].key))
    {
      assert pending[i] == Assign(o, keys[..n][i - |start|], m[keys[..n][i - |start|]]);
      assert keys[..n][i - |start|] == keys[i - |start|];
    }
  }

  lemma AssignsAppend(o: Obj, m: map<string, Value>, keys: seq<string>, k: string)
    requires forall i :: 0 <= i < |keys| ==> keys[i] in m
    requires k in m
    ensures Assigns(o, m, keys + [k]) == Assigns(o, m, keys) + [Assign(o, k, m[k])]
  {
    var xs := keys + [k];
    assert forall i :: 0 <= i < |keys| ==> xs[i] == keys[i];
  }
}
