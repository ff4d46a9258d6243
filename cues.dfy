/** The cue store of src/cues.ts: declared cue times (defaults) with a
    layer of user overrides on top, persisted as one stored object. The
    browser's storage is the `storage` field, holding the stored object's
    entries in order; JSON text and parse errors are not modelled (an
    absent or unparseable item is `None`). */
module Cues {
  import opened Common

  datatype CueDef = CueDef(id: string, defaultTime: real, labelText: string)

  /** A stored JSON value: a number or anything else. */
  datatype JsonValue = Number(v: real) | NotANumber

  type Entries = seq<(string, JsonValue)>

  /** No key occurs twice. */
  predicate DistinctKeys(entries: Entries)
  {
    forall i, j :: 0 <= i < j < |entries| ==> entries[i].0 != entries[j].0
  }

  /** The entries of a parsed object, in order: an object holds each key
      once, a repeated key in the text having been settled by the parse. */
  type StoredObject = entries: Entries | DistinctKeys(entries)

  const CUE_DEFS: seq<CueDef> := [
    CueDef("anim-begin", 0.0, "BEGIN"),
    CueDef("scene-title", 0.0, "Title"),
    CueDef("scene-rings", 3.0, "Rings"),
    CueDef("rings-labels", 3.5, "Labels"),
    CueDef("rings-polys", 6.0, "Polys"),
    CueDef("scene-hom", 10.0, "Hom"),
    CueDef("hom-typeSig", 10.5, "TypeSig"),
    CueDef("hom-constants", 17.0, "Constants"),
    CueDef("hom-mappings", 19.5, "Mappings"),
    CueDef("scene-param", 30.0, "Param2D"),
    CueDef("param-plotStart", 30.5, "Plot2D"),
    CueDef("scene-param3d", 40.0, "Param3D"),
    CueDef("param3d-plotStart", 40.5, "Plot3D"),
    CueDef("scene-duality", 50.0, "Duality"),
    CueDef("duality-row2", 55.0, "Row2"),
    CueDef("duality-row3", 58.0, "Row3"),
    CueDef("duality-row4", 61.0, "Row4"),
    CueDef("duality-row5", 63.0, "Row5"),
    CueDef("duality-uniformize", 64.0, "Uniform"),
    CueDef("duality-fadeOut", 67.0, "Closing"),
    CueDef("anim-end", 70.0, "END")
  ]

  const STORAGE_KEY: string := "janim-cues"

  /** The one key a plain object cannot hold as its own property when it
      is assigned. */
  const PROTO_KEY: string := "__proto__"

  /** The defaults map built from the cue table: a later definition
      of the same id wins. */
  function DefaultsOf(defs: seq<CueDef>): (m: map<string, real>)
    ensures forall i :: 0 <= i < |defs| ==> defs[i].id in m
    ensures forall id :: id in m ==> exists i :: 0 <= i < |defs| && defs[i].id == id
  {
    if defs == [] then map[]
    else
      var last := defs[|defs| - 1];
      var prefix := defs[..|defs| - 1];
      var m := DefaultsOf(prefix);
      assert forall i :: 0 <= i < |prefix| ==> prefix[i] == defs[i];
      m[last.id := last.defaultTime]
  }

  /** With distinct ids every declared id maps to its own default time. */
  lemma {:induction false} DefaultsOfValue(defs: seq<CueDef>, i: nat)
    requires forall a, b :: 0 <= a < b < |defs| ==> defs[a].id != defs[b].id
    requires i < |defs|
    ensures defs[i].id in DefaultsOf(defs) && DefaultsOf(defs)[defs[i].id] == defs[i].defaultTime
  {
    var prefix := defs[..|defs| - 1];
    if i < |defs| - 1 {
      assert prefix[i] == defs[i];
      DefaultsOfValue(prefix, i);
      assert defs[|defs| - 1].id != defs[i].id;
    }
  }

  /** The entries a load keeps: a declared key with a number value. */
  function LoadFilter(entries: StoredObject, declared: set<string>): (m: map<string, real>)
    ensures m.Keys <= declared
  {
    if entries == [] then map[]
    else
      var m := LoadFilter(entries[..|entries| - 1], declared);
      var (k, v) := entries[|entries| - 1];
      if k in declared && v.Number? then m[k := v.v] else m
  }

  /** What the load at start-up makes of the stored item. */
  function Loaded(stored: Option<StoredObject>, declared: set<string>): (r: map<string, real>)
    ensures r.Keys <= declared
    ensures stored.None? ==> r == map[]
  {
    match stored
    case None => map[]
    case Some(entries) => LoadFilter(entries, declared)
  }

  function KeysOf(entries: Entries): set<string>
  {
    set i | 0 <= i < |entries| :: entries[i].0
  }

  /** `entries` is the object `save` writes for `m`: each key once, with
      its value as a number, and every key of `m` present. */
  predicate Represents(entries: Entries, m: map<string, real>)
  {
    RepresentsOn(entries, m, m.Keys)
  }

  /** `entries` lists, each once, exactly the keys `keys` of `m` with
      their values. */
  predicate RepresentsOn(entries: Entries, m: map<string, real>, keys: set<string>)
  {
    DistinctKeys(entries) &&
    (forall i :: 0 <= i < |entries| ==> entries[i].0 in m && entries[i].1 == Number(m[entries[i].0])) &&
    KeysOf(entries) == keys
  }

  /** One more key written out. */
  lemma {:induction false} RepresentsOnAppend(entries: Entries, m: map<string, real>, keys: set<string>, k: string)
    requires RepresentsOn(entries, m, keys) && k in m && k !in keys
    ensures RepresentsOn(entries + [(k, Number(m[k]))], m, keys + {k})
  {
    var e := entries + [(k, Number(m[k]))];
    assert forall i :: 0 <= i < |entries| ==> e[i] == entries[i];
    assert forall i :: 0 <= i < |entries| ==> entries[i].0 in keys;
    assert KeysOf(e) == keys + {k} by {
      assert e[|entries|].0 == k;
    }
  }

  /** The keys the save loop has written once `remaining` are left: those
      it has passed, but for `__proto__`. */
  function Written(m: map<string, real>, remaining: set<string>): set<string>
  {
    (m.Keys - remaining) - {PROTO_KEY}
  }

  lemma {:induction false} WrittenAll(m: map<string, real>)
    ensures Written(m, {}) == (m - {PROTO_KEY}).Keys
  {
  }

  /** One pass of the save loop: every key but `__proto__` is written. */
  lemma {:induction false} WriteStep(entries: Entries, m: map<string, real>, remaining: set<string>, k: string)
    requires remaining <= m.Keys && k in remaining
    requires RepresentsOn(entries, m - {PROTO_KEY}, Written(m, remaining))
    ensures var next := if k != PROTO_KEY then entries + [(k, Number(m[k]))] else entries;
      RepresentsOn(next, m - {PROTO_KEY}, Written(m, remaining - {k}))
  {
    var written := m - {PROTO_KEY};
    if k != PROTO_KEY {
      RepresentsOnAppend(entries, written, Written(m, remaining), k);
      assert written[k] == m[k];
      assert Written(m, remaining) + {k} == Written(m, remaining - {k});
    } else {
      assert Written(m, remaining) == Written(m, remaining - {k});
    }
  }

  /** The load loop: keep each entry whose key is declared and whose value
      is a number. */
  method LoadOverrides(entries: StoredObject, declared: set<string>) returns (overrides: map<string, real>)
    ensures overrides == LoadFilter(entries, declared)
  {
    overrides := map[];
    var i := 0;
    while i < |entries|
      invariant 0 <= i <= |entries|
      invariant overrides == LoadFilter(entries[..i], declared)
    {
      assert entries[..i + 1][..i] == entries[..i];
      var (k, v) := entries[i];
      if k in declared && v.Number? {
        overrides := overrides[k := v.v];
      }
      i := i + 1;
    }
    assert entries[..i] == entries;
  }

  class CueStore {
    const defaults: map<string, real>
    var overrides: map<string, real>
    /** The stored item under STORAGE_KEY. */
    var storage: Option<StoredObject>

    /** Module start-up: defaults from CUE_DEFS, then the load loop over the
        stored entries. */
    constructor (stored: Option<StoredObject>)
      ensures defaults == DefaultsOf(CUE_DEFS)
      ensures overrides == Loaded(stored, defaults.Keys)
      ensures storage == stored
    {
      defaults := DefaultsOf(CUE_DEFS);
      storage := stored;
      var loaded := map[];
      if stored.Some? {
        loaded := LoadOverrides(stored.value, DefaultsOf(CUE_DEFS).Keys);
      }
      overrides := loaded;
    }

    /** The override if one is set, else the declared default, else 0. */
    function GetCue(id: string): (r: real)
      reads this
      ensures id in overrides ==> r == overrides[id]
      ensures id !in overrides && id in defaults ==> r == defaults[id]
      ensures id !in overrides && id !in defaults ==> r == 0.0
    {
      if id in overrides then overrides[id]
      else if id in defaults then defaults[id]
      else 0.0
    }

    /** Write the whole override map out as one object. Assigning a
        number to the `__proto__` property of a plain object goes to its
        prototype setter, which ignores it, so that key is never written. */
    method Save()
      modifies this
      ensures overrides == old(overrides)
      ensures storage.Some? && Represents(storage.value, overrides - {PROTO_KEY})
    {
      var entries: Entries := [];
      var remaining := overrides.Keys;
      while remaining != {}
        invariant overrides == old(overrides)
        invariant remaining <= overrides.Keys
        invariant RepresentsOn(entries, overrides - {PROTO_KEY}, Written(overrides, remaining))
        decreases |remaining|
      {
        var k :| k in remaining;
        WriteStep(entries, overrides, remaining, k);
        if k != PROTO_KEY {
          entries := entries + [(k, Number(overrides[k]))];
        }
        remaining := remaining - {k};
      }
      WrittenAll(overrides);
      storage := Some(entries);
    }

    /** Override one cue, declared or not, and save. */
    method SetCue(id: string, time: real)
      modifies this
      ensures overrides == old(overrides)[id := time]
      ensures GetCue(id) == time
      ensures forall other :: other != id ==> GetCue(other) == old(GetCue(other))
      ensures old(overrides).Keys <= overrides.Keys
      ensures storage.Some? && Represents(storage.value, overrides - {PROTO_KEY})
    {
      overrides := overrides[id := time];
      Save();
    }
  }

  // ---------------------------------------------------------------------
  // Load and save
  // ---------------------------------------------------------------------

  /** Entry i gives key k a number. */
  predicate GivesNumber(entries: Entries, i: nat, k: string)
    requires i < |entries|
  {
    entries[i].0 == k && entries[i].1.Number?
  }

  /** A key survives the load exactly when it is declared and its entry
      is a number; it is loaded with that number. */
  lemma {:induction false} LoadFilterKeeps(entries: StoredObject, declared: set<string>, k: string)
    ensures k in LoadFilter(entries, declared) <==>
            k in declared && exists i :: 0 <= i < |entries| && GivesNumber(entries, i, k)
    ensures k in LoadFilter(entries, declared) ==>
            forall i :: 0 <= i < |entries| && entries[i].0 == k ==>
              entries[i].1 == Number(LoadFilter(entries, declared)[k])
  {
    LoadFilterLast(entries, declared, k);
    if k in LoadFilter(entries, declared) {
      var i :| 0 <= i < |entries| && GivesNumber(entries, i, k) &&
        entries[i].1 == Number(LoadFilter(entries, declared)[k]);
      forall j | 0 <= j < |entries| && entries[j].0 == k
        ensures entries[j].1 == Number(LoadFilter(entries, declared)[k])
      {
        assert j == i;
      }
    }
  }

  /** The load keeps a key exactly when some entry gives it a number, and
      gives it the number of the last such entry. */
  lemma {:induction false} LoadFilterLast(entries: StoredObject, declared: set<string>, k: string)
    ensures k in LoadFilter(entries, declared) <==>
            k in declared && exists i :: 0 <= i < |entries| && GivesNumber(entries, i, k)
    ensures k in LoadFilter(entries, declared) ==>
            exists i :: 0 <= i < |entries| && GivesNumber(entries, i, k) &&
              entries[i].1 == Number(LoadFilter(entries, declared)[k])
  {
    if entries != [] {
      var n := |entries| - 1;
      var prefix := entries[..n];
      var m := LoadFilter(entries, declared);
      var pm := LoadFilter(prefix, declared);
      LoadFilterLast(prefix, declared, k);
      assert forall i :: 0 <= i < n ==> (GivesNumber(prefix, i, k) <==> GivesNumber(entries, i, k));
      if GivesNumber(entries, n, k) && k in declared {
        assert m == pm[k := entries[n].1.v];
      } else {
        assert m == pm || entries[n].0 != k;
        assert k in m <==> k in pm;
        if k in m {
          assert m[k] == pm[k];
          var i :| 0 <= i < n && GivesNumber(prefix, i, k) && prefix[i].1 == Number(pm[k]);
          assert entries[i] == prefix[i];
        }
      }
    }
  }

  /** Loading what `save` wrote gives back the overrides of declared ids
      and drops the others. */
  lemma {:induction false} SaveLoadRoundTrip(entries: Entries, m: map<string, real>, declared: set<string>)
    requires Represents(entries, m)
    ensures LoadFilter(entries, declared) == map k | k in m && k in declared :: m[k]
  {
    var loaded := LoadFilter(entries, declared);
    var expected := map k | k in m && k in declared :: m[k];
    forall k ensures k in loaded <==> k in expected {
      LoadFilterKeeps(entries, declared, k);
      if k in m {
        assert k in KeysOf(entries);
        var i :| 0 <= i < |entries| && entries[i].0 == k;
        assert GivesNumber(entries, i, k);
      }
    }
    forall k | k in loaded ensures loaded[k] == expected[k] {
      LoadFilterKeeps(entries, declared, k);
    }
    assert loaded.Keys == expected.Keys;
  }

  /** After `setCue(id, v)` and a reload, a declared id reads back `v`,
      while an undeclared id falls back to 0. */
  lemma {:induction false} SetCueSurvivesReload(entries: Entries, m: map<string, real>, id: string, v: real)
    requires Represents(entries, m - {PROTO_KEY}) && id in m && m[id] == v
    ensures var reloaded := Loaded(Some(entries), DefaultsOf(CUE_DEFS).Keys);
      (id in DefaultsOf(CUE_DEFS) ==> id in reloaded && reloaded[id] == v) &&
      (id !in DefaultsOf(CUE_DEFS) ==> id !in reloaded)
  {
    ProtoKeyUndeclared();
    SaveLoadRoundTrip(entries, m - {PROTO_KEY}, DefaultsOf(CUE_DEFS).Keys);
  }

  /** No declared cue is called `__proto__`, so leaving that key out of
      the saved object loses no declared override. */
  lemma {:induction false} ProtoKeyUndeclared()
    ensures PROTO_KEY !in DefaultsOf(CUE_DEFS)
  {
    UndeclaredKey(CUE_DEFS, PROTO_KEY);
  }

  lemma {:induction false} UndeclaredKey(defs: seq<CueDef>, k: string)
    requires forall i :: 0 <= i < |defs| ==> defs[i].id != k
    ensures k !in DefaultsOf(defs)
  {
  }

  // ---------------------------------------------------------------------
  // The declared cues
  // ---------------------------------------------------------------------

  /** The ids are distinct. */
  lemma {:induction false} CueIdsDistinct()
    ensures forall i, j :: 0 <= i < j < |CUE_DEFS| ==> CUE_DEFS[i].id != CUE_DEFS[j].id
  {
  }

  /** Each declared cue's default is its declared time. */
  lemma {:induction false} DefaultAt(i: nat)
    requires i < |CUE_DEFS|
    ensures CUE_DEFS[i].id in DefaultsOf(CUE_DEFS)
    ensures DefaultsOf(CUE_DEFS)[CUE_DEFS[i].id] == CUE_DEFS[i].defaultTime
  {
    CueIdsDistinct();
    DefaultsOfValue(CUE_DEFS, i);
  }

  /** The default times never decrease, and the animation runs from
      `anim-begin` at 0 to `anim-end` at 70. */
  lemma {:induction false} CueTimesOrdered()
    ensures forall i :: 0 <= i < |CUE_DEFS| - 1 ==> CUE_DEFS[i].defaultTime <= CUE_DEFS[i + 1].defaultTime
    ensures CUE_DEFS[0] == CueDef("anim-begin", 0.0, "BEGIN")
    ensures CUE_DEFS[|CUE_DEFS| - 1] == CueDef("anim-end", 70.0, "END")
  {
  }
}
