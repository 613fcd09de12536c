# lever resource engine, modelled in Dafny

lever turns an ORM-backed data model into a REST resource. An `API` view
handles requests in the same way for every model:

- `get` lists, searches and paginates, or fetches one object by primary key.
- `post` creates, `patch` runs a named action, `put` updates fields and
  `delete` removes.
- Every verb asks the object or its model class for a capability before it
  acts: `view_<profile>`, `class_create`, `action_<name>`, `edit_<field>` or
  `delete`.
- `dispatch_request` routes a verb to its handler. It turns the handler's
  failure into a `LeverException` carrying an HTTP code and a message, found
  through an ordered list of except clauses.
- `get_joined` serializes objects through *join profiles*. A profile is a
  list of entries: `-key` removes a key from the object's document, a plain
  name includes an attribute, and a mapping describes a related object to
  serialize recursively.

The project models all of this over abstract collaborators:

- The data engine's query object is the list of calls made on it
  (`Filter`, `OrderBy`, `FilterBy`, `Offset`, `Limit`). What the engine then
  does with those calls belongs to the engine.
- A model class is a value. It holds its column names, `one()` and row
  lookup for a query, `can_cls`, the create operation and class actions.
- An entity instance is a tree. It holds its class name, its document
  (`to_dict`), its attribute values (`jsonize`), the attributes a profile
  name reaches, its related objects, `can` and its actions.
- The database session is a `class` whose pending changes `commit` flushes
  and counts.
- The `API` view is a `class` with a mutable `params` field. `get_obj` and
  `search` pop reserved keys from it, and the verbs read what is left.
- Python 2 details that decide behaviour are written out:
  - truthiness (`if not self.params`);
  - first-match `except` clauses over the SQLAlchemy exception hierarchy;
  - dictionary iteration order, as a parameter that must enumerate each key
    set;
  - the ordering that makes `min(text, number)` pick the number.

Files:

- `json.dfy`: decoded JSON values, truthiness and `dict.get`.
- `errors.dfy`: exception kinds, the except-clause table and `LeverException`.
- `operators.dfy`: `OPERATORS`.
- `queries.dfy`: the stages of `search`, `safe_json` and the pagination
  arithmetic.
- `search_properties.dfy`: properties of the query builder.
- `resources.dfy`: collaborators.
- `joined.dfy` and `joined_properties.dfy`: `get_joined`, as functions, as
  the loop-based methods the code uses, and the properties of both.
- `capabilities.dfy`: capability strings.
- `api.dfy`: the session, the `API` class, its verbs and dispatch.

Where the code and the repository's documented behaviour differ, the model
follows the code:

- `put` checks and assigns each key in turn, not all checks first. A refused
  key leaves the earlier assignments pending in the session, although no
  commit happens.
- `put` assigns every body key except the primary key. Reserved names such
  as `pg` or `join_prof` are not stripped from an update.
- A key both removed (`-key`) and included by a profile comes back with its
  attribute value.
- A failed capability check is reported as 403 with the fixed text "You
  don't have permission to do that", not the assertion's own message.
- `LeverException.end_user` is always `{'message': message}`: the argument
  is defaulted and then dropped.
- Create on behalf of another user (`__username` / `__user_id`) ends in a
  `TypeError` that is re-raised, because `can_cls` does not accept the
  `params=` keyword it is given.
- `pg` and `pg_size` reach `paginate` as query-string text, which the code
  never converts. The model reads them as the numbers they spell. See
  Findings.
- A `__filter` that decodes to a number, a boolean or None escapes the
  search as an unhandled error in the code. The model reports the
  argument-count syntax error the handler was written to raise. See
  Findings.

## Model

| member | source | states |
|---|---|---|
| Errors.ClauseResult | lever/base.py:97-122 | each except clause yields one of the codes 400, 402, 403, 404, 409 |
| Errors.FirstMatch | lever/base.py:96-124 | no clause is picked exactly when the exception is an instance of none of them; a picked one has a listed code |
| Errors.FirstMatchPicksFirst | lever/base.py:96-124 | the first clause the exception is an instance of decides the handler |
| Errors.ClassifyTable | lever/base.py:96-126 | the ordered clauses give exactly the table: KeyError, AttributeError, APISyntaxError, MultipleResultsFound, InvalidRequestError, DataError give 400; AssertionError 403; APINotFound and NoResultFound 404; IntegrityError 409; any other database error 402; everything else is re-raised |
| Errors.ClassifyEngine | lever/base.py:97-108 | the engine's own failures are settled by the first five clauses, as the table says |
| Errors.ClassifyDatabase | lever/base.py:111-122 | database failures pass the first five clauses and meet their own, as the table says |
| Errors.LookupTable | lever/base.py:111-116 | NoResultFound, MultipleResultsFound and IntegrityError meet their own clauses, ahead of the broad ones |
| Errors.BroadTable | lever/base.py:117-122 | InvalidRequestError, DataError and other database errors meet the last three clauses |
| Errors.ClassifyUnhandled | lever/base.py:123-124 | any other failure passes every clause and is re-raised |
| Errors.NoResultFoundShadowsBroaderClauses | lever/base.py:111-122 | NoResultFound is an InvalidRequestError and a SQLAlchemyError, yet it is reported as 404 because its clause comes first |
| Errors.EndUserIsMessageOnly | lever/base.py:25-30 | whatever `end_user` is passed, the stored one is exactly `{'message': message}` |
| Errors.Settle | lever/base.py:93-126 | a handler result is the response; a classified failure becomes a LeverException with the code and message of the clause that classified it, `{'message'}` as end_user; an unclassified one is re-raised unchanged |
| OperatorTable.Arity | lever/base.py:33-66 | every predicate builder takes one or two arguments |
| OperatorTable.ArityByName | lever/base.py:33-66 | `is_null`, `is_not_null`, `desc` and `asc` take one argument, and every other entry takes two |
| Queries.RawClause | lever/base.py:305-316 | one clause raises only KeyError, AttributeError, TypeError or the invalid-operator syntax error |
| Queries.TranslateFilterError | lever/base.py:317-331 | each failure the filter loop catches becomes an APISyntaxError |
| Queries.FilterClause | lever/base.py:305-331 | a clause either fails with an APISyntaxError or builds a criterion whose arity matches its operator and whose first argument is a model column |
| Queries.ApplyClauses | lever/base.py:305-316 | the filter loop fails only with an APISyntaxError, and otherwise appends one Filter step per clause after the existing steps |
| Queries.FilterStage | lever/base.py:299-331 | the `__filter` stage fails only with an APISyntaxError, and otherwise only appends Filter steps |
| Queries.FilterStageAsWrittenEscapes | lever/base.py:305-331 | `__filter=5` escapes as UnboundLocalError, which is re-raised, where the corrected stage reports the argument-count syntax error |
| Queries.FilterStageCorrection | lever/base.py:299-331 | the two stages differ exactly on a truthy value that decodes to None, a boolean or a number |
| Queries.OrderKey | lever/base.py:339-348 | `-name` orders descending on `name` and any other key ascending; a key naming no column is an APISyntaxError naming the key; a key naming a column always succeeds |
| Queries.Iterated | lever/base.py:392 | `for x in v` sees a list's items, a mapping's keys in iteration order or a string's characters; anything else is a TypeError |
| Queries.ApplyOrder | lever/base.py:339-344 | the order_by loop fails only with an APISyntaxError, and otherwise appends one OrderBy step per key |
| Queries.OrderStage | lever/base.py:333-348 | the `__order_by` stage fails only with an APISyntaxError or TypeError, and otherwise only appends OrderBy steps |
| Queries.ApplyFilterBy | lever/base.py:355-361 | the filter_by loop succeeds exactly when every key names a column; otherwise the error names a key that does not; on success one FilterBy step per entry |
| Queries.FilterByStage | lever/base.py:350-361 | the `__filter_by` stage fails only with an APISyntaxError or AttributeError, and otherwise only appends FilterBy steps |
| Queries.Search | lever/base.py:293-363 | search fails only with an APISyntaxError, TypeError or AttributeError |
| Queries.Paginate | lever/base.py:277-291 | no size and no maximum leaves the query unchanged; a size without a maximum is a TypeError; with a maximum, an offset and a limit no larger than the maximum are appended |
| SearchProperties.FilterClauseAcceptsWellFormed | lever/base.py:305-316 | a clause is accepted exactly when it is well formed (columns exist, operator known, operand count equals arity), and then builds its criterion |
| SearchProperties.UnknownOperatorRejected | lever/base.py:312-314 | an operator outside the table is reported as "Invalid operator specified in filter arguments" |
| SearchProperties.UnknownFieldRejected | lever/base.py:307-321 | a clause naming a column the model lacks is reported as the invalid-field syntax error |
| SearchProperties.MissingKeyRejected | lever/base.py:307-326 | a clause without `name`, or without `op`, is reported as missing required arguments |
| SearchProperties.WrongArityRejected | lever/base.py:315-331 | more or fewer operands than the operator takes is the argument-count syntax error |
| SearchProperties.NonMappingClauseRejected | lever/base.py:305-331 | a clause that is not a mapping is the argument-count syntax error |
| SearchProperties.ApplyClausesInOrder | lever/base.py:305-316 | every valid clause adds exactly one filter, in list order |
| SearchProperties.ApplyClausesFirstError | lever/base.py:305-331 | the first invalid clause decides the error |
| SearchProperties.ApplyOrderInOrder | lever/base.py:339-344 | every valid order_by key adds exactly one order_by step, in order |
| SearchProperties.ApplyFilterByEntries | lever/base.py:355-357 | each filter_by key naming a column adds `filter_by(key=value)`, in iteration order |
| SearchProperties.FilterByStageEntries | lever/base.py:350-357 | a non-empty filter_by mapping over columns adds exactly one step per entry, and every entry appears |
| SearchProperties.SearchPhases | lever/base.py:299-363 | search appends its filters, then its order_bys, then its filter_bys, after the original steps |
| SearchProperties.BogusOperatorSearch | lever/base.py:299-314 | the query-string text `__filter=[{"name": "name", "op": "bogus_op"}]`, decoded, makes the whole search the invalid-operator syntax error |
| SearchProperties.MalformedFilterSearch | lever/base.py:299-304 | a non-empty `__filter` text that `json.loads` rejects makes the whole search the syntax error "Error decoding JSON parameters. Original exception was …" carrying the decoder's reason |
| SearchProperties.PaginateWindow | lever/base.py:285-291 | with a maximum: limit = min(size or maximum, maximum) and offset = (page - 1) * limit, the page defaulting to 1 |
| SearchProperties.PaginateClampExample | lever/base.py:285-291 | with maximum 100, a size of 500 gives pages of 100; no size and no maximum leaves the query unchanged |
| Resources.OneFailuresClassified | lever/base.py:111-132 | a lookup matching nothing is reported as 404, one matching several as 400 |
| Joined.ProfileEntries | lever/base.py:384-392 | a profile name is looked up on the object (missing: AttributeError) and the attribute is iterated whatever it holds: a list's items, a text's characters, a mapping's keys, and TypeError for a number, boolean or None; a list profile is used as given |
| Joined.SplitPartition | lever/base.py:389-399 | every entry lands in exactly one of removals, includes and sub-objects, and each list holds exactly the entries of its kind |
| Joined.RemoveFirst | lever/base.py:403 | `list.remove` takes out one occurrence |
| Joined.SubEntry | lever/base.py:420-431 | a non-mapping descriptor is an AttributeError, a non-string `obj` a TypeError, an unknown relation an AttributeError; a related None is stored as None; a related object or list is serialized with the descriptor's `join_prof` (default the standard profile), and its serialization error is the result |
| Joined.SplitProfile | lever/base.py:389-399 | the splitting loop builds exactly the removals, sub-objects and includes |
| Joined.PopKeys | lever/base.py:412-413 | the pop loop yields the document without the removed keys |
| Joined.GetJoined | lever/base.py:382-432 | the method that splits, merges and fills the dictionary in place yields exactly the serialization of the object |
| Joined.GetSubEntry | lever/base.py:420-431 | one pass of the sub-object loop yields exactly the descriptor's entry |
| Joined.GetJoinedList | lever/base.py:376-380 | the append loop yields exactly the serialization of the list |
| JoinedProperties.BaseWithoutSentinel | lever/base.py:401-414 | without `__dont_mongo`, the base is `to_dict()` minus the removed keys, overwritten by the included attributes |
| JoinedProperties.BaseWithSentinel | lever/base.py:401-416 | with `__dont_mongo`, the base holds only the included attributes |
| JoinedProperties.SentinelConsumed | lever/base.py:403 | a single sentinel entry never reaches `jsonize` |
| JoinedProperties.JoinSubsKeys | lever/base.py:420-431 | the sub-object loop adds exactly the keys its descriptors name and leaves every other key as it was |
| JoinedProperties.JoinSubsLastWins | lever/base.py:420-431 | when several descriptors name one key, the last of them decides its value |
| JoinedProperties.JoinObjKeys | lever/base.py:401-432 | a serialized object holds the base keys, `_cls` and the sub-object keys; `_cls` is the class name unless a descriptor reuses it |
| JoinedProperties.ClassNameNeverDropped | lever/base.py:417 | `_cls` is always present |
| JoinedProperties.RemovedAndIncludedReappears | lever/base.py:409-414 | a key removed and also included comes back with its attribute value |
| JoinedProperties.RemovedKeyAbsent | lever/base.py:409-414 | a removed key that nothing brings back is absent |
| JoinedProperties.NullRelationKept | lever/base.py:425-431 | a related None is stored under its key as None, not omitted |
| JoinedProperties.NamedProfileLookup | lever/base.py:384-392 | a named profile is the object's attribute of that name, and a non-text attribute serializes as if passed as the profile; a missing one is an AttributeError |
| JoinedProperties.NonIterableProfile | lever/base.py:384-392 | a profile name reaching a number, boolean or None attribute (`join_prof=id`) fails with a TypeError that no except clause catches, so it is re-raised |
| JoinedProperties.TextProfileCharacters | lever/base.py:384-392 | a profile name reaching a text attribute iterates its characters, one entry each |
| JoinedProperties.JoinListElementwise | lever/base.py:376-380 | a list serializes exactly when each element does, with the same length and order |
| JoinedProperties.JoinListFirstError | lever/base.py:376-380 | the first element that cannot be serialized decides the error |
| JoinedProperties.JoinObjErrors | lever/base.py:382-432 | serializing an object fails only with AttributeError or TypeError |
| JoinedProperties.JoinListErrors | lever/base.py:376-380 | serializing a list fails only with AttributeError or TypeError |
| JoinedProperties.JoinListSingle | lever/base.py:376-380 | a one-element list serializes to the one-element list of its serialization |
| Capabilities.DerivationsInjective | lever/base.py:148-255 | `view_`, `edit_` and `action_` names determine the profile, key or action they came from |
| Capabilities.DerivationsDistinct | lever/base.py:148-271 | the capability kinds never collide with one another |
| Api.BodyParams | lever/base.py:163-266 | a falsy body is the "values must be specified" syntax error; only a non-empty mapping gets through, and a list or other value fails at the first pop |
| Api.Lookup | lever/base.py:129-133 | a falsy key finds nothing; a truthy key with no pkey column is an AttributeError; otherwise the single row `one()` returns is found, no row is NoResultFound and several rows are MultipleResultsFound |
| Api.PatchReply | lever/base.py:226-232 | None or True gives `{success: True}`; False gives `{success: False}`; a mapping gives `success: True` updated by the mapping, its own keys winning |
| Api.PaginateValues | lever/base.py:280-291 | paginate on given values: no size and no maximum returns the query; a size without a maximum is a TypeError; otherwise offset and limit with limit at most the maximum, a non-number page a TypeError |
| Api.ParseIntToString | lever/base.py:285-291 | the decimal text of any integer parses back to it, so the corrected pagination reads `pg` and `pg_size` as the numbers they spell (second Findings row) |
| Api.Api.Paginate | lever/base.py:144-291 | with a maximum, the page succeeds exactly when `pg` is absent, a number or decimal text, and the limit never exceeds the maximum |
| Api.Api.PaginateAsWritten | lever/base.py:144-291 | as written, with a maximum, any `pg` given as text is a TypeError |
| Api.PageTextAsWritten | lever/base.py:144-291 | as written, `pg=2` is a TypeError that is re-raised, and `pg_size=10` is ignored for the maximum |
| Api.PageTextRead | lever/base.py:144-291 | read as numbers, `pg` and `pg_size` give the offset (pg - 1) * size and the limit size |
| Api.Route | lever/base.py:86-91 | a verb without a handler has no route; GET and HEAD both reach `get` |
| Api.Api.constructor | lever/base.py:69-74 | the view starts with its class settings and empty parameters |
| Api.Api.Listing | lever/base.py:151-156 | the list branch of `get` (search, then `one()` under `__one` or the page) never fails with an assertion error, so it is never reported as a view denial |
| Api.Api.Shown | lever/base.py:157-159 | objects are shown exactly when every one grants `view_<join>` and all serialize, as `{success, objects}`; any denial is the view assertion; other failures are serialization errors |
| Api.Api.GetResult | lever/base.py:141-159 | `get`: a failed key lookup is its error; a found object is shown exactly when it grants `view_<join>` and serializes, and a denial is the view assertion; without a key, the searched rows are shown; the only assertion error is the view denial |
| Api.Api.PostResult | lever/base.py:161-196 | `post`: an empty body is the "values must be specified" syntax error; on behalf of a user, the user lookup's failure or the TypeError that follows; without `class_create`, "Cant create that object"; a create with the wrong arguments is the create syntax error, a raised error passes through, None gives `{success}`, an object gives `{success, objects}` with its serialization |
| Api.Api.PatchResult | lever/base.py:198-236 | `patch`: a missing `__action` is a KeyError; without `__cls` the object found by key must exist ("Could not find any object to perform an action on") and grant `action_<name>`, with `__cls` the class must; a non-string action is a TypeError; the action then runs on the remaining parameters and its reply decides the result |
| Api.ActionReply | lever/base.py:215-236 | an action called with the wrong arguments is the syntax error naming the action; a raised error passes through; a returned value gives the reply `patch` builds from it |
| Api.FirstDenied | lever/base.py:252-257 | the position of the first key refused `edit_<key>`: every key before it is granted, and the key at it is refused |
| Api.Api.PutResult | lever/base.py:242-261 | `put`: an empty body, a failed lookup or a missing object ("Could not find any object to update") is the error; otherwise success exactly when every non-key field is granted `edit_<field>`, and a refusal names the first refused key and the model |
| Api.Api.DeleteResult | lever/base.py:263-275 | `delete`: an empty body, a failed lookup or a missing object ("Could not find any object to delete") is the error; otherwise success exactly when the object grants `delete`, else "Can't delete that object" |
| Api.Api.Handle | lever/base.py:85-91 | GET and HEAD run `get`, and POST, PATCH, PUT and DELETE run their own handler |
| Api.Api.GetObj | lever/base.py:129-133 | pops the primary key, and only it, from params and looks it up |
| Api.Api.SearchFilter | lever/base.py:299-331 | pops `__filter` and applies the filter stage to it |
| Api.Api.SearchOrder | lever/base.py:333-348 | pops `__order_by` and applies the order stage to it |
| Api.Api.SearchFilterBy | lever/base.py:350-361 | pops `__filter_by` and applies the filter_by stage to it |
| Api.Api.Search | lever/base.py:293-363 | the result is the search of the parameters as they were; a failing stage leaves the later reserved keys in params |
| Api.Api.Get | lever/base.py:141-159 | the response is `GetResult` of the arguments; a success lists exactly the objects shown, each granting `view_<join>`: the object found by key, or else the rows the list branch finds |
| Api.Api.ShowOne | lever/base.py:147-149 | the reply is `Shown` of the one object: shown exactly when it grants `view_<join>` and serializes, a denial coming before serialization |
| Api.Api.ShowAll | lever/base.py:157-159 | the reply is `Shown` of the rows: shown exactly when all grant `view_<join>` and serialize; any denial is the error |
| Api.Api.ListRows | lever/base.py:151-156 | the rows are `Listing` of the parameters as they were; after a successful search the search keys and `__one` are gone from params |
| Api.Api.AllViewable | lever/base.py:157-158 | true exactly when every row grants `view_<join>` |
| Api.Api.Post | lever/base.py:161-196 | the reply is `PostResult` of the body and user; it commits exactly when the body is a non-empty mapping, not on behalf, `class_create` is granted and create returns |
| Api.Api.Patch | lever/base.py:198-236 | the reply is `PatchResult` of the body; on success the instance found by key (or with `__cls` the class) granted `action_<name>` and the action returned; one commit on success, none on failure |
| Api.Api.Put | lever/base.py:242-261 | the reply is `PutResult` of the body, on the object found by key; success commits the assignments once, in order; failure commits nothing and leaves only granted assignments pending |
| Api.Api.UpdateFields | lever/base.py:251-261 | the keys are assigned in iteration order; success exactly when every key is granted `edit_<key>`, then the assignments are committed once; otherwise the error names the first refused key and the model, nothing is committed, and only granted assignments of this object are pending |
| Api.Api.EditKeys | lever/base.py:252-257 | each key is checked before it is assigned; the reported key is the one at `FirstDenied`, none when every key is granted, and then every assignment is pending |
| Api.Api.Delete | lever/base.py:263-275 | the reply is `DeleteResult` of the body, on the object found by key; success records the removal and commits once; failure changes nothing |
| Api.Api.DispatchRequest | lever/base.py:85-126 | a verb without a handler fails its assertion before the try and is re-raised; otherwise the outcome is `Handle` of the request, settled; at most one commit per request |
| Api.VerbFailureResponses | lever/base.py:97-204 | an empty body gives 400 with its message, APINotFound 404, a capability denial 403 with the fixed text, a missing `__action` 400 naming the key, a TypeError is re-raised |

## Left out

- Flask plumbing (`request`, `jsonify`, `MethodView`, `register`,
  `current_user`, `current_app.logger`) is not modelled. Requests enter as
  a verb, query-string arguments and a decoded body. Replies are values.
- The data engine is not modelled: what `filter`, `order_by`, `offset`,
  `limit`, `one()`, `create`, actions, `to_dict` and `jsonize` do to rows.
  These are fields of the collaborator values. Commit is a counter plus the
  list of changes it flushes.
- `json.loads` is a decoder parameter that either yields a value or fails
  with a reason.
- `create_hook` does nothing in the code and is not modelled.
- Api.Api.Post: the "wrong number of arguments" detection, which sniffs
  Python's exception text, is an abstract `WrongArgs` outcome of create and
  of actions.
- Api.Api.Post: the create-on-behalf branch is modelled only as far as the
  user lookup, whose failures pass through, and the TypeError that follows.
- Api.BodyParams: a non-mapping body leaves `params` as an empty mapping in
  the model rather than the raw value. No later step reads it.
- Api.PatchReply: `dict.update` with a non-empty string or list is treated
  as the ValueError it gives for most inputs. Sequences of key/value pairs
  are not modelled.
- Json.Show: lists and mappings in error messages are abbreviated, not
  printed as Python prints them.
- Queries.FilterByStage: a `__filter_by` key that names no column is
  assumed to raise AttributeError in the engine, as the code's handler
  expects.
- Api.ParseInt accepts only an optional minus sign followed by decimal
  digits. Whitespace and `+` are not modelled.
- Integers are unbounded. Python 2 promotes to long, so no wrap-around
  exists to model.
- Api.Api.Put, Queries.ModelAttr, Queries.OrderKey: text is treated as
  ASCII. In Python 2, a non-ASCII body key reaching the `str.format` debug
  log in `put` (lever/base.py:253-254), or a non-ASCII unicode attribute name
  reaching `getattr` in `search` (lever/base.py:307, 311, 341, 343), raises
  UnicodeEncodeError. No except clause catches it, so it is a 500. The model
  has no such failure.
- Api.Api.Get, Api.Api.ListRows, Api.Api.Search, Queries.Search: these use
  the corrected halves of both Findings. Pagination reads `pg` and
  `pg_size` as numbers, and a `__filter` that decodes to a number, a
  boolean or None gives the argument-count syntax error (400). The code as
  written gives unhandled errors (500) for these inputs. Those are modelled
  only by the as-written members named in Findings.
- Floating-point numbers are not modelled: the JSON value type has integers
  only. A JSON or query-string fraction such as `__filter=1.5` or `pg=1.5`
  cannot be represented.
- Joined.ProfileEntries: an attribute a profile name reaches holds a
  JSON-like value. A date or a method attribute, which the code also fails
  to iterate with an uncaught TypeError, cannot be represented.
- Cyclic object graphs in `get_joined` are not modelled: objects are finite
  trees. The code has no guard against cycles.
- Pre/post-process hooks, ACL mixins and mappers are not defined in
  lever/base.py, and no verb there calls them; they are not part of this
  model.

## Findings

| source | as written | input that shows it | evidently intended | confidence | as-written member | corrected member |
|---|---|---|---|---|---|---|
| lever/base.py:305-331 | iterating a `__filter` value that is a number or a boolean raises TypeError before `op` is bound; the handler's `.format(op)` then raises UnboundLocalError, which no clause catches (500) | `GET /?__filter=5` | the argument-count APISyntaxError (400) the handler means to raise | not executed | Queries.FilterStageAsWritten, Queries.FilterStageAsWrittenEscapes | Queries.FilterStage, Queries.FilterStageCorrection |
| lever/base.py:144-291 | `pg` and `pg_size` stay query-string text: `"2" - 1` raises TypeError (500), and `min("10", 100)` is 100 under Python 2 ordering, so the requested size is ignored | `GET /?pg=2`, `GET /?pg_size=10` with `max_pg_size = 100` | the numbers the text spells select the page and the size | not executed | Api.Api.PaginateAsWritten, Api.PageTextAsWritten | Api.Api.Paginate, Api.PageTextRead |
