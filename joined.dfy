/**
 * `get_joined`: the join-profile serializer.  A profile is a sequence of
 * entries: `-name` removes a key from the object's document, a plain name
 * includes an attribute, and anything else describes a related object to
 * serialize recursively.  The functions state what the serializer produces;
 * the methods GetJoined and GetJoinedList build it the way the source does,
 * by appending to lists and updating the dictionary in place.
 */
module Joined {
  import opened Json
  import opened Errors
  import opened Wrappers
  import opened Queries
  import opened Resources

  /** The profile entry that drops the object's own document. */
  const Sentinel := "__dont_mongo"

  /** The profile used when none is named. */
  const DefaultProfile := "standard_join"

  /**
   * The entries of a profile: a string names an attribute of the object,
   * which is then iterated whatever it holds; any other value is iterated
   * as it is.
   */
  function ProfileEntries(o: Obj, prof: Value, order: KeyOrder): (r: Result<seq<Value>>)
    ensures prof.Str? && prof.s !in o.profiles ==> r == Err(AttributeError)
    ensures prof.Str? && prof.s in o.profiles ==>
      var attr := o.profiles[prof.s];
      && (r.Ok? <==> attr.List? || attr.Dict? || attr.Str?)
      && (attr.List? ==> r == Ok(attr.items))
      && (attr.Str? ==> r.Ok? && |r.value| == |attr.s|)
      && (r.Err? ==> r.error == TypeError)
    ensures !prof.Str? ==> (r.Ok? <==> prof.List? || prof.Dict?)
    ensures prof.List? ==> r == Ok(prof.items)
    ensures r.Err? ==> r.error == AttributeError || r.error == TypeError
  {
    match prof
    case Str(name) =>
      if name in o.profiles then Iterated(o.profiles[name], order)   // for key in getattr(obj, name)
      else Err(AttributeError)
    case _ => Iterated(prof, order)
  }

  // ------------------------------------------------- splitting a profile

  /** The keys named by `-key` entries, without their dash, in profile order. */
  function Removals(entries: seq<Value>): seq<string> {
    if entries == [] then []
    else
      var e := entries[|entries| - 1];
      Removals(entries[..|entries| - 1]) + (if e.Str? && StartsWithDash(e.s) then [e.s[1..]] else [])
  }

  /** The plain string entries, in profile order. */
  function Includes(entries: seq<Value>): seq<string> {
    if entries == [] then []
    else
      var e := entries[|entries| - 1];
      Includes(entries[..|entries| - 1]) + (if e.Str? && !StartsWithDash(e.s) then [e.s] else [])
  }

  /** The non-string entries: the sub-object descriptors, in profile order. */
  function Subs(entries: seq<Value>): seq<Value> {
    if entries == [] then []
    else
      var e := entries[|entries| - 1];
      Subs(entries[..|entries| - 1]) + (if !e.Str? then [e] else [])
  }

  /** Every entry of a profile lands in exactly one of the three lists. */
  lemma {:induction false} SplitPartition(entries: seq<Value>)
    ensures |Removals(entries)| + |Includes(entries)| + |Subs(entries)| == |entries|
    ensures forall k :: k in Includes(entries) <==> Str(k) in entries && !StartsWithDash(k)
    ensures forall k :: k in Removals(entries) <==> Str("-" + k) in entries
    ensures forall v :: v in Subs(entries) <==> v in entries && !v.Str?
  {
    if entries != [] {
      var init := entries[..|entries| - 1];
      var e := entries[|entries| - 1];
      SplitPartition(init);
      assert entries == init + [e];
      forall k ensures k in Removals(entries) <==> Str("-" + k) in entries {
        if e.Str? && StartsWithDash(e.s) {
          assert e.s == "-" + e.s[1..];
          if Str("-" + k) == e {
            assert k == e.s[1..];
          }
        }
      }
    }
  }

  /** `list.remove(x)`: the first occurrence of `x` taken out. */
  function RemoveFirst(xs: seq<string>, x: string): (r: seq<string>)
    requires x in xs
    ensures |r| == |xs| - 1
    ensures multiset(r) == multiset(xs) - multiset{x}
  {
    assert xs == [xs[0]] + xs[1..];
    if xs[0] == x then xs[1..]
    else [xs[0]] + RemoveFirst(xs[1..], x)
  }

  // ------------------------------------------------- the object's own keys

  /** `obj.jsonize(keys)`: the object's attribute values for the requested keys. */
  function Jsonize(o: Obj, keys: seq<string>): (r: map<string, Value>)
    ensures forall k :: k in r <==> k in keys && k in o.attrs
  {
    map k | k in keys && k in o.attrs :: o.attrs[k]
  }

  /** A document with the listed keys popped. */
  function Drop(d: map<string, Value>, keys: seq<string>): (r: map<string, Value>)
    ensures forall k :: k in r <==> k in d && k !in keys
  {
    map k | k in d && k !in keys :: d[k]
  }

  /**
   * The dictionary before `_cls` and the sub-objects are added: with the
   * sentinel, only the included attributes; otherwise the document with the
   * removed keys popped and then updated with the included attributes.
   */
  function BaseDict(o: Obj, entries: seq<Value>): map<string, Value> {
    var includes := Includes(entries);
    if Sentinel in includes then Jsonize(o, RemoveFirst(includes, Sentinel))
    else Drop(o.doc, Removals(entries)) + Jsonize(o, includes)
  }

  // ------------------------------------------------- recursion

  /** The key a sub-object descriptor names with `conf.get('obj')`. */
  function ConfKey(conf: Value): Value {
    if conf.Dict? then Get(conf.entries, "obj", Null) else Null
  }

  /** `get_joined` on one object. */
  function JoinObj(o: Obj, prof: Value, order: KeyOrder): Result<Value>
    decreases o, 2
  {
    var entries :- ProfileEntries(o, prof, order);
    var d :- JoinSubs(o, Subs(entries), BaseDict(o, entries)["_cls" := Str(o.cls)], order);
    Ok(Dict(d))
  }

  /** The loop over the sub-object descriptors, each one setting its key. */
  function JoinSubs(o: Obj, subs: seq<Value>, dct: map<string, Value>, order: KeyOrder): Result<map<string, Value>>
    decreases o, 1, |subs|
  {
    if subs == [] then Ok(dct)
    else
      var entry :- SubEntry(o, subs[0], order);
      JoinSubs(o, subs[1..], dct[entry.0 := entry.1], order)
  }

  /**
   * One sub-object descriptor: the related value under `conf['obj']`,
   * serialized with `conf.get('join_prof', 'standard_join')`; None is kept as None.
   */
  function SubEntry(o: Obj, conf: Value, order: KeyOrder): (r: Result<(string, Value)>)
    decreases o, 0
    ensures r.Ok? ==> ConfKey(conf) == Str(r.value.0) && r.value.0 in o.related
    ensures r.Ok? && o.related[r.value.0].Nothing? ==> r.value.1 == Null
    ensures !conf.Dict? ==> r == Err(AttributeError)
    ensures conf.Dict? && !ConfKey(conf).Str? ==> r == Err(TypeError)
    ensures conf.Dict? && ConfKey(conf).Str? && ConfKey(conf).s !in o.related ==> r == Err(AttributeError)
    ensures conf.Dict? && ConfKey(conf).Str? && ConfKey(conf).s in o.related ==>
      var k := ConfKey(conf).s;
      var prof := Get(conf.entries, "join_prof", Str(DefaultProfile));
      match o.related[k]
      case Nothing => r == Ok((k, Null))
      case Single(x) =>
        && (JoinObj(x, prof, order).Ok? ==> r == Ok((k, JoinObj(x, prof, order).value)))
        && (JoinObj(x, prof, order).Err? ==> r == Err(JoinObj(x, prof, order).error))
      case Several(xs) =>
        && (JoinList(xs, prof, order).Ok? ==> r == Ok((k, List(JoinList(xs, prof, order).value))))
        && (JoinList(xs, prof, order).Err? ==> r == Err(JoinList(xs, prof, order).error))
  {
    if !conf.Dict? then Err(AttributeError)   // conf.get on a non-mapping
    else
      var key := Get(conf.entries, "obj", Null);
      var prof := Get(conf.entries, "join_prof", Str(DefaultProfile));
      if !key.Str? then Err(TypeError)        // getattr with a non-string name
      else if key.s !in o.related then Err(AttributeError)
      else
        match o.related[key.s]
        case Nothing => Ok((key.s, Null))
        case Single(x) =>
          var v :- JoinObj(x, prof, order);
          Ok((key.s, v))
        case Several(xs) =>
          var vs :- JoinList(xs, prof, order);
          Ok((key.s, List(vs)))
  }

  /** `get_joined` on a list or query: every element with the same profile. */
  function JoinList(xs: seq<Obj>, prof: Value, order: KeyOrder): Result<seq<Value>>
    decreases xs
  {
    if xs == [] then Ok([])
    else
      var v :- JoinObj(xs[0], prof, order);
      var vs :- JoinList(xs[1..], prof, order);
      Ok([v] + vs)
  }

  /** One element of a list's serialization, then the rest. */
  lemma JoinListUnfold(xs: seq<Obj>, prof: Value, order: KeyOrder)
    requires xs != []
    ensures JoinList(xs, prof, order) ==
      if JoinObj(xs[0], prof, order).Err? then Err(JoinObj(xs[0], prof, order).error)
      else Cons([JoinObj(xs[0], prof, order).value], JoinList(xs[1..], prof, order))
  {
  }

  lemma ConsAssoc(acc: seq<Value>, v: Value, rest: Result<seq<Value>>)
    ensures Cons(acc, Cons([v], rest)) == Cons(acc + [v], rest)
  {
    if rest.Ok? {
      assert acc + ([v] + rest.value) == (acc + [v]) + rest.value;
    }
  }

  /** A partial list in front of the rest of a list's serialization. */
  function Cons(acc: seq<Value>, rest: Result<seq<Value>>): Result<seq<Value>> {
    if rest.Ok? then Ok(acc + rest.value) else rest
  }

  // ------------------------------------------------- the serializer itself

  /** The loop that sorts a profile's entries into removals, sub-objects and included keys. */
  method SplitProfile(join: seq<Value>) returns (remove: seq<string>, subObj: seq<Value>, joinKeys: seq<string>)
    ensures remove == Removals(join) && subObj == Subs(join) && joinKeys == Includes(join)
  {
    remove, subObj, joinKeys := [], [], [];
    for i := 0 to |join|
      invariant remove == Removals(join[..i])
      invariant joinKeys == Includes(join[..i])
      invariant subObj == Subs(join[..i])
    {
      var key := join[i];
      assert join[..i + 1][..i] == join[..i];
      if key.Str? {
        if StartsWithDash(key.s) {
          remove := remove + [key.s[1..]];
        } else {
          joinKeys := joinKeys + [key.s];
        }
      } else {
        subObj := subObj + [key];
      }
    }
    assert join[..|join|] == join;
  }

  /** `for key in remove: dct.pop(key, None)` */
  method PopKeys(d: map<string, Value>, remove: seq<string>) returns (dct: map<string, Value>)
    ensures dct == Drop(d, remove)
  {
    dct := d;
    for i := 0 to |remove|
      invariant dct == Drop(d, remove[..i])
    {
      assert remove[..i + 1] == remove[..i] + [remove[i]];
      dct := dct - {remove[i]};
    }
    assert remove[..|remove|] == remove;
  }

  /** `get_joined(obj, join_prof)` on one object. */
  method GetJoined(o: Obj, prof: Value, order: KeyOrder) returns (r: Result<Value>)
    ensures r == JoinObj(o, prof, order)
    decreases o, 2
  {
    var found := ProfileEntries(o, prof, order);
    if found.Err? {
      return Err(found.error);
    }
    var join := found.value;
    var remove, subObj, joinKeys := SplitProfile(join);

    var includeBase := Sentinel !in joinKeys;
    if !includeBase {
      joinKeys := RemoveFirst(joinKeys, Sentinel);
    }
    var joinVals := Jsonize(o, joinKeys);
    var dct: map<string, Value>;
    if includeBase {
      dct := PopKeys(o.doc, remove);
      dct := dct + joinVals;
    } else {
      dct := joinVals;
    }
    dct := dct["_cls" := Str(o.cls)];

    // the sub-object joins
    ghost var start := dct;
    for i := 0 to |subObj|
      invariant JoinSubs(o, subObj, start, order) == JoinSubs(o, subObj[i..], dct, order)
    {
      assert subObj[i..][1..] == subObj[i + 1..];
      var entry := GetSubEntry(o, subObj[i], order);
      if entry.Err? {
        return Err(entry.error);
      }
      dct := dct[entry.value.0 := entry.value.1];
    }
    assert subObj[|subObj|..] == [];
    return Ok(Dict(dct));
  }

  /** One pass of the sub-object loop of `get_joined`. */
  method GetSubEntry(o: Obj, conf: Value, order: KeyOrder) returns (r: Result<(string, Value)>)
    ensures r == SubEntry(o, conf, order)
    decreases o, 0
  {
    if !conf.Dict? {
      return Err(AttributeError);
    }
    var key := Get(conf.entries, "obj", Null);
    var subProf := Get(conf.entries, "join_prof", Str(DefaultProfile));
    if !key.Str? {
      return Err(TypeError);
    }
    if key.s !in o.related {
      return Err(AttributeError);
    }
    match o.related[key.s]
    case Nothing =>
      return Ok((key.s, Null));
    case Single(x) =>
      var v := GetJoined(x, subProf, order);
      if v.Err? {
        return Err(v.error);
      }
      return Ok((key.s, v.value));
    case Several(xs) =>
      var vs := GetJoinedList(xs, subProf, order);
      if vs.Err? {
        return Err(vs.error);
      }
      return Ok((key.s, List(vs.value)));
  }

  /** `get_joined(items, join_prof)` on a list or query. */
  method GetJoinedList(xs: seq<Obj>, prof: Value, order: KeyOrder) returns (r: Result<seq<Value>>)
    ensures r == JoinList(xs, prof, order)
    decreases xs
  {
    var lst: seq<Value> := [];
    assert xs[0..] == xs;
    if JoinList(xs, prof, order).Ok? {
      assert [] + JoinList(xs, prof, order).value == JoinList(xs, prof, order).value;
    }
    for i := 0 to |xs|
      invariant JoinList(xs, prof, order) == Cons(lst, JoinList(xs[i..], prof, order))
    {
      JoinListUnfold(xs[i..], prof, order);
      assert xs[i..][0] == xs[i] && xs[i..][1..] == xs[i + 1..];
      var v := GetJoined(xs[i], prof, order);
      if v.Err? {
        return Err(v.error);
      }
      ConsAssoc(lst, v.value, JoinList(xs[i + 1..], prof, order));
      lst := lst + [v.value];
    }
    assert xs[|xs|..] == [];
    assert lst + [] == lst;
    return Ok(lst);
  }
}
