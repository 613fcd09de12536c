/**
 * Properties of the join-profile serializer: which keys the result holds and
 * where each value comes from, the `__dont_mongo` sentinel, the `_cls` stamp,
 * related objects that are None, and lists serialized element by element.
 */
module JoinedProperties {
  import opened Json
  import opened Errors
  import opened Queries
  import opened Resources
  import opened Joined

  // ------------------------------------------------- the object's own keys

  /**
   * Without the sentinel the base dictionary is the document minus the
   * removed keys, overwritten by the included attributes.
   */
  lemma BaseWithoutSentinel(o: Obj, entries: seq<Value>)
    requires Sentinel !in Includes(entries)
    ensures var b := BaseDict(o, entries);
      && (forall k :: k in b <==> (k in o.doc && k !in Removals(entries)) || (k in Includes(entries) && k in o.attrs))
      && (forall k :: k in Includes(entries) && k in o.attrs ==> b[k] == o.attrs[k])
      && (forall k :: k in o.doc && k !in Removals(entries) && !(k in Includes(entries) && k in o.attrs) ==>
            b[k] == o.doc[k])
  {
  }

  /** With the sentinel only the included attributes are kept; the document plays no part. */
  lemma BaseWithSentinel(o: Obj, entries: seq<Value>)
    requires Sentinel in Includes(entries)
    ensures var b := BaseDict(o, entries);
      && (forall k :: k in b <==> k in o.attrs && k in RemoveFirst(Includes(entries), Sentinel))
      && (forall k :: k in b ==> b[k] == o.attrs[k])
  {
  }

  /** The sentinel entry itself is consumed: one occurrence never reaches jsonize. */
  lemma SentinelConsumed(entries: seq<Value>)
    requires Sentinel in Includes(entries)
    requires forall i, j :: 0 <= i < j < |entries| && entries[i] == Str(Sentinel) ==> entries[j] != Str(Sentinel)
    ensures Sentinel !in RemoveFirst(Includes(entries), Sentinel)
  {
    IncludesCountAtMostOne(entries);
    var r := RemoveFirst(Includes(entries), Sentinel);
    assert multiset(r)[Sentinel] == 0;
  }

  lemma {:induction false} IncludesCountAtMostOne(entries: seq<Value>)
    requires forall i, j :: 0 <= i < j < |entries| && entries[i] == Str(Sentinel) ==> entries[j] != Str(Sentinel)
    ensures multiset(Includes(entries))[Sentinel] <= 1
  {
    if entries != [] {
      var init := entries[..|entries| - 1];
      var e := entries[|entries| - 1];
      IncludesCountAtMostOne(init);
      SplitPartition(init);
      if e == Str(Sentinel) {
        forall i | 0 <= i < |init|
          ensures init[i] != Str(Sentinel)
        {
          assert init[i] == entries[i];
        }
        assert Str(Sentinel) !in init;
      }
    }
  }

  // ------------------------------------------------- the sub-object keys

  /** The keys the sub-object descriptors name. */
  function SubKeys(subs: seq<Value>): set<string> {
    set i | 0 <= i < |subs| && ConfKey(subs[i]).Str? :: ConfKey(subs[i]).s
  }

  lemma SubKeysCons(subs: seq<Value>)
    requires subs != []
    ensures SubKeys(subs) == (if ConfKey(subs[0]).Str? then {ConfKey(subs[0]).s} else {}) + SubKeys(subs[1..])
  {
    forall k | k in SubKeys(subs)
      ensures k in (if ConfKey(subs[0]).Str? then {ConfKey(subs[0]).s} else {}) + SubKeys(subs[1..])
    {
      var i :| 0 <= i < |subs| && ConfKey(subs[i]).Str? && ConfKey(subs[i]).s == k;
      if i > 0 {
        assert subs[1..][i - 1] == subs[i];
      }
    }
    forall k | k in SubKeys(subs[1..])
      ensures k in SubKeys(subs)
    {
      var i :| 0 <= i < |subs[1..]| && ConfKey(subs[1..][i]).Str? && ConfKey(subs[1..][i]).s == k;
      assert subs[i + 1] == subs[1..][i];
    }
  }

  /**
   * The sub-object loop adds exactly the keys its descriptors name, and
   * leaves every other key of the dictionary as it was.
   */
  lemma {:induction false} JoinSubsKeys(o: Obj, subs: seq<Value>, dct: map<string, Value>, order: KeyOrder)
    requires JoinSubs(o, subs, dct, order).Ok?
    ensures var r := JoinSubs(o, subs, dct, order).value;
      && r.Keys == dct.Keys + SubKeys(subs)
      && (forall k :: k in dct && k !in SubKeys(subs) ==> r[k] == dct[k])
  {
    if subs != [] {
      var entry := SubEntry(o, subs[0], order).value;
      JoinSubsKeys(o, subs[1..], dct[entry.0 := entry.1], order);
      SubKeysCons(subs);
    }
  }

  /** When several descriptors name one key, the last of them decides its value. */
  lemma {:induction false} JoinSubsLastWins(o: Obj, subs: seq<Value>, dct: map<string, Value>, order: KeyOrder, i: nat)
    requires JoinSubs(o, subs, dct, order).Ok?
    requires i < |subs|
    requires forall j :: i < j < |subs| ==> ConfKey(subs[j]) != ConfKey(subs[i])
    ensures SubEntry(o, subs[i], order).Ok?
    ensures var k := SubEntry(o, subs[i], order).value.0;
      k in JoinSubs(o, subs, dct, order).value
      && JoinSubs(o, subs, dct, order).value[k] == SubEntry(o, subs[i], order).value.1
  {
    var entry := SubEntry(o, subs[0], order).value;
    var next := dct[entry.0 := entry.1];
    if i == 0 {
      JoinSubsKeys(o, subs[1..], next, order);
      forall j | 0 <= j < |subs[1..]|
        ensures ConfKey(subs[1..][j]) != Str(entry.0)
      {
        assert subs[1..][j] == subs[j + 1];
      }
      assert entry.0 !in SubKeys(subs[1..]);
    } else {
      forall j | i - 1 < j < |subs[1..]|
        ensures ConfKey(subs[1..][j]) != ConfKey(subs[1..][i - 1])
      {
        assert subs[1..][j] == subs[j + 1];
      }
      JoinSubsLastWins(o, subs[1..], next, order, i - 1);
    }
  }

  // ------------------------------------------------- one object

  /**
   * The keys of a serialized object: its base dictionary, `_cls` and the
   * sub-object keys.  `_cls` holds the class name unless a descriptor
   * reuses that key, and base values survive unless a later step overwrites them.
   */
  lemma JoinObjKeys(o: Obj, prof: Value, order: KeyOrder)
    requires JoinObj(o, prof, order).Ok?
    ensures var entries := ProfileEntries(o, prof, order).value;
      var b := BaseDict(o, entries);
      var subKeys := SubKeys(Subs(entries));
      var d := JoinObj(o, prof, order).value;
      && d.Dict?
      && d.entries.Keys == b.Keys + {"_cls"} + subKeys
      && ("_cls" !in subKeys ==> d.entries["_cls"] == Str(o.cls))
      && (forall k :: k in b && k != "_cls" && k !in subKeys ==> d.entries[k] == b[k])
  {
    var entries := ProfileEntries(o, prof, order).value;
    var start := BaseDict(o, entries)["_cls" := Str(o.cls)];
    JoinSubsKeys(o, Subs(entries), start, order);
  }

  /** The discriminator `_cls` is always present in a serialized object. */
  lemma ClassNameNeverDropped(o: Obj, prof: Value, order: KeyOrder)
    requires JoinObj(o, prof, order).Ok?
    ensures "_cls" in JoinObj(o, prof, order).value.entries
  {
    JoinObjKeys(o, prof, order);
  }

  /**
   * A key removed with `-key` and also included comes back with its
   * attribute value: the removal only applies to the document.
   */
  lemma RemovedAndIncludedReappears(o: Obj, prof: Value, order: KeyOrder, k: string)
    requires JoinObj(o, prof, order).Ok?
    requires var entries := ProfileEntries(o, prof, order).value;
      && Sentinel !in Includes(entries)
      && k in Removals(entries) && k in Includes(entries) && k in o.attrs
      && k != "_cls" && k !in SubKeys(Subs(entries))
    ensures k in JoinObj(o, prof, order).value.entries
    ensures JoinObj(o, prof, order).value.entries[k] == o.attrs[k]
  {
    var entries := ProfileEntries(o, prof, order).value;
    BaseWithoutSentinel(o, entries);
    JoinObjKeys(o, prof, order);
  }

  /** A removed key that nothing else brings back is absent from the result. */
  lemma RemovedKeyAbsent(o: Obj, prof: Value, order: KeyOrder, k: string)
    requires JoinObj(o, prof, order).Ok?
    requires var entries := ProfileEntries(o, prof, order).value;
      && Sentinel !in Includes(entries)
      && k in Removals(entries) && !(k in Includes(entries) && k in o.attrs)
      && k != "_cls" && k !in SubKeys(Subs(entries))
    ensures k !in JoinObj(o, prof, order).value.entries
  {
    var entries := ProfileEntries(o, prof, order).value;
    BaseWithoutSentinel(o, entries);
    JoinObjKeys(o, prof, order);
  }

  /** A relationship that holds None is stored as None under its key, not left out. */
  lemma NullRelationKept(o: Obj, prof: Value, order: KeyOrder, i: nat, k: string)
    requires JoinObj(o, prof, order).Ok?
    requires var subs := Subs(ProfileEntries(o, prof, order).value);
      && i < |subs| && ConfKey(subs[i]) == Str(k)
      && k in o.related && o.related[k].Nothing?
      && (forall j :: i < j < |subs| ==> ConfKey(subs[j]) != Str(k))
    ensures k in JoinObj(o, prof, order).value.entries
    ensures JoinObj(o, prof, order).value.entries[k] == Null
  {
    var entries := ProfileEntries(o, prof, order).value;
    var start := BaseDict(o, entries)["_cls" := Str(o.cls)];
    JoinSubsLastWins(o, Subs(entries), start, order, i);
  }

  /**
   * A profile named by string is the object's attribute of that name; a
   * missing one is an AttributeError.  An attribute that is not itself text
   * serializes as if it had been passed as the profile.
   */
  lemma NamedProfileLookup(o: Obj, name: string, order: KeyOrder)
    ensures name !in o.profiles ==> JoinObj(o, Str(name), order) == Err(AttributeError)
    ensures name in o.profiles && !o.profiles[name].Str? ==>
      JoinObj(o, Str(name), order) == JoinObj(o, o.profiles[name], order)
  {
  }

  /**
   * A profile name that reaches an attribute holding a number, a boolean or
   * None, as `join_prof=id` does, fails with a TypeError when the loop
   * tries to iterate it, and no except clause catches it.
   */
  lemma NonIterableProfile(o: Obj, name: string, order: KeyOrder)
    requires name in o.profiles
    requires o.profiles[name].Int? || o.profiles[name].Bool? || o.profiles[name].Null?
    ensures JoinObj(o, Str(name), order) == Err(TypeError)
    ensures Classify(TypeError).None?
  {
    ClassifyUnhandled(TypeError);
  }

  /** A profile name that reaches a text attribute iterates its characters, one entry each. */
  lemma TextProfileCharacters(o: Obj, name: string, order: KeyOrder)
    requires name in o.profiles && o.profiles[name].Str?
    ensures ProfileEntries(o, Str(name), order) == Ok(CharValues(o.profiles[name].s))
  {
  }

  // ------------------------------------------------- lists

  /** A list is serialized element by element, keeping its length and order. */
  lemma {:induction false} JoinListElementwise(xs: seq<Obj>, prof: Value, order: KeyOrder)
    ensures JoinList(xs, prof, order).Ok? <==> forall i :: 0 <= i < |xs| ==> JoinObj(xs[i], prof, order).Ok?
    ensures JoinList(xs, prof, order).Ok? ==>
      && |JoinList(xs, prof, order).value| == |xs|
      && forall i :: 0 <= i < |xs| ==> JoinList(xs, prof, order).value[i] == JoinObj(xs[i], prof, order).value
  {
    if xs != [] {
      JoinListElementwise(xs[1..], prof, order);
      assert forall i :: 1 <= i < |xs| ==> xs[1..][i - 1] == xs[i];
      if JoinObj(xs[0], prof, order).Ok? && JoinList(xs[1..], prof, order).Ok? {
        var r := JoinList(xs, prof, order).value;
        forall i | 0 <= i < |xs|
          ensures r[i] == JoinObj(xs[i], prof, order).value
        {
          if i > 0 {
            assert r[i] == JoinList(xs[1..], prof, order).value[i - 1];
          }
        }
      }
    }
  }

  /** The first element that cannot be serialized decides the error. */
  lemma {:induction false} JoinListFirstError(xs: seq<Obj>, prof: Value, order: KeyOrder, k: nat)
    requires k < |xs|
    requires forall i :: 0 <= i < k ==> JoinObj(xs[i], prof, order).Ok?
    requires JoinObj(xs[k], prof, order).Err?
    ensures JoinList(xs, prof, order) == Err(JoinObj(xs[k], prof, order).error)
  {
    if k > 0 {
      assert forall i :: 0 <= i < k - 1 ==> xs[1..][i] == xs[i + 1];
      JoinListFirstError(xs[1..], prof, order, k - 1);
    }
  }

  // ------------------------------------------------------- failure kinds

  /** Serialization fails only by a missing attribute or a value of the wrong type. */
  predicate SerializationError(e: Exc) {
    e == AttributeError || e == TypeError
  }

  lemma {:induction false} JoinObjErrors(o: Obj, prof: Value, order: KeyOrder)
    decreases o, 2
    ensures JoinObj(o, prof, order).Err? ==> SerializationError(JoinObj(o, prof, order).error)
  {
    var entries := ProfileEntries(o, prof, order);
    if entries.Ok? {
      JoinSubsErrors(o, Subs(entries.value), BaseDict(o, entries.value)["_cls" := Str(o.cls)], order);
    }
  }

  lemma {:induction false} JoinSubsErrors(o: Obj, subs: seq<Value>, dct: map<string, Value>, order: KeyOrder)
    decreases o, 1, |subs|
    ensures JoinSubs(o, subs, dct, order).Err? ==> SerializationError(JoinSubs(o, subs, dct, order).error)
  {
    if subs != [] {
      var entry := SubEntry(o, subs[0], order);
      SubEntryErrors(o, subs[0], order);
      if entry.Ok? {
        JoinSubsErrors(o, subs[1..], dct[entry.value.0 := entry.value.1], order);
      }
    }
  }

  lemma {:induction false} SubEntryErrors(o: Obj, conf: Value, order: KeyOrder)
    decreases o, 0
    ensures SubEntry(o, conf, order).Err? ==> SerializationError(SubEntry(o, conf, order).error)
  {
    if conf.Dict? {
      var key := Get(conf.entries, "obj", Null);
      var prof := Get(conf.entries, "join_prof", Str(DefaultProfile));
      if key.Str? && key.s in o.related {
        match o.related[key.s]
        case Nothing =>
        case Single(x) => JoinObjErrors(x, prof, order);
        case Several(xs) => JoinListErrors(xs, prof, order);
      }
    }
  }

  lemma {:induction false} JoinListErrors(xs: seq<Obj>, prof: Value, order: KeyOrder)
    decreases xs
    ensures JoinList(xs, prof, order).Err? ==> SerializationError(JoinList(xs, prof, order).error)
  {
    if xs != [] {
      JoinObjErrors(xs[0], prof, order);
      JoinListErrors(xs[1..], prof, order);
    }
  }

  /** A single object serialized as a list is that object's serialization, in a list. */
  lemma JoinListSingle(o: Obj, prof: Value, order: KeyOrder)
    ensures JoinList([o], prof, order) ==
      if JoinObj(o, prof, order).Ok? then Ok([JoinObj(o, prof, order).value]) else Err(JoinObj(o, prof, order).error)
  {
    assert [o][0] == o && [o][1..] == [];
    if JoinObj(o, prof, order).Ok? {
      assert [JoinObj(o, prof, order).value] + [] == [JoinObj(o, prof, order).value];
    }
  }
}
