/** User overrides of instrument parameters: a table of registered parameter
    names, each holding an override value or the `undefined` marker
    (`UserOverride` in src/usaxs/utils/override.py and its copy
    src/usaxs/misc/override_parameters.py, which behave identically).  The
    table is a Python dictionary, so it keeps registration order. */
module Overrides {
  import opened Wrappers
  import opened OrderedDicts

  /** A parameter table: `None` is the `undefined` marker. */
  type Table<V> = Dict<string, Option<V>>

  /** `pick(name, default)`: the override when one is defined, otherwise the default. */
  function Pick<V>(t: Table<V>, name: string, default: V): (v: V)
    ensures name !in Keys(t) ==> v == default
  {
    var entry := Get(t, name);
    if entry.Some? && entry.value.Some? then entry.value.value else default
  }

  /** The table with every value undefined and every name kept in place. */
  function Cleared<V>(t: Table<V>): (r: Table<V>)
    ensures |r| == |t| && forall i :: 0 <= i < |t| ==> r[i] == (t[i].0, None)
  {
    if t == [] then [] else [(t[0].0, None)] + Cleared(t[1..])
  }

  /** After `set(name, value)` on a registered name, `pick(name, d)` gives the
      value and every other name picks as before. */
  lemma PickAfterSet<V>(t: Table<V>, name: string, value: V, other: string, default: V)
    ensures Pick(Put(t, name, Some(value)), name, default) == value
    ensures other != name ==> Pick(Put(t, name, Some(value)), other, default) == Pick(t, other, default)
  {
    GetPut(t, name, Some(value), name);
    GetPut(t, name, Some(value), other);
  }

  /** After `reset(name)`, `pick(name, d)` gives `d` and every other name
      picks as before. */
  lemma PickAfterReset<V>(t: Table<V>, name: string, other: string, default: V)
    ensures Pick(Put(t, name, None), name, default) == default
    ensures other != name ==> Pick(Put(t, name, None), other, default) == Pick(t, other, default)
  {
    GetPut(t, name, None, name);
    GetPut(t, name, None, other);
  }

  /** Registering a name changes no pick: an existing override survives, and a
      new name picks the default as an unregistered one did. */
  lemma RegisterKeepsPicks<V>(t: Table<V>, name: string, other: string, default: V)
    ensures var r := if name in Keys(t) then t else Put(t, name, None);
      Pick(r, other, default) == Pick(t, other, default)
  {
    if name !in Keys(t) {
      GetPut(t, name, None, other);
    }
  }

  lemma {:induction false} ClearedGet<V>(t: Table<V>, name: string)
    ensures Get(Cleared(t), name) == if name in Keys(t) then Some(None) else None
  {
    if t != [] {
      var r := Cleared(t);
      assert r[1..] == Cleared(t[1..]);
      assert Keys(t) == [t[0].0] + Keys(t[1..]);
      ClearedGet(t[1..], name);
    }
  }

  /** After `reset_all`, the same names are registered, in the same order, and
      every name picks the default. */
  lemma ClearedPicksDefault<V>(t: Table<V>, name: string, default: V)
    ensures Keys(Cleared(t)) == Keys(t)
    ensures Pick(Cleared(t), name, default) == default
  {
    ClearedGet(t, name);
    assert Keys(Cleared(t)) == Keys(t);
  }

  /** The override object; its table only ever gains names. */
  class UserOverride<V> {
    var parameters: Table<V>

    ghost predicate Valid()
      reads this
    {
      DistinctKeys(parameters)
    }

    constructor ()
      ensures Valid() && parameters == []
    {
      parameters := [];
    }

    /** `register(name)`: adds the name as undefined only when it is absent. */
    method Register(name: string)
      requires Valid()
      modifies this
      ensures Valid()
      ensures parameters == if name in Keys(old(parameters)) then old(parameters) else Put(old(parameters), name, None)
    {
      if name !in Keys(parameters) {
        PutDistinct(parameters, name, None);
        parameters := Put(parameters, name, None);
      }
    }

    /** `set(name, value)`: KeyError, and no change, for an unregistered name. */
    method Set(name: string, value: V) returns (err: Option<Error>)
      requires Valid()
      modifies this
      ensures Valid()
      ensures name !in Keys(old(parameters)) ==> err == Some(KeyError(name)) && parameters == old(parameters)
      ensures name in Keys(old(parameters)) ==> err == None && parameters == Put(old(parameters), name, Some(value))
    {
      if name !in Keys(parameters) {
        return Some(KeyError(name));
      }
      PutDistinct(parameters, name, Some(value));
      parameters := Put(parameters, name, Some(value));
      err := None;
    }

    /** `reset(name)`: KeyError, and no change, for an unregistered name. */
    method Reset(name: string) returns (err: Option<Error>)
      requires Valid()
      modifies this
      ensures Valid()
      ensures name !in Keys(old(parameters)) ==> err == Some(KeyError(name)) && parameters == old(parameters)
      ensures name in Keys(old(parameters)) ==> err == None && parameters == Put(old(parameters), name, None)
    {
      if name !in Keys(parameters) {
        return Some(KeyError(name));
      }
      PutDistinct(parameters, name, None);
      parameters := Put(parameters, name, None);
      err := None;
    }

    /** `reset_all()`: `reset` of each registered name, in order. */
    method ResetAll()
      requires Valid()
      modifies this
      ensures Valid()
      ensures parameters == Cleared(old(parameters))
    {
      ghost var t0 := parameters;
      var names := Keys(parameters);
      var i := 0;
      while i < |names|
        invariant 0 <= i <= |names| && |parameters| == |t0|
        invariant Valid()
        invariant forall j :: 0 <= j < i ==> parameters[j] == (t0[j].0, None)
        invariant forall j :: i <= j < |t0| ==> parameters[j] == t0[j]
        invariant names == Keys(t0)
      {
        ResetAt(i);
        i := i + 1;
      }
      assert parameters == Cleared(t0);
    }

    /** `reset` of the name at position `i`: that entry becomes undefined in
        place and no other entry changes. */
    method ResetAt(i: nat)
      requires Valid() && i < |parameters|
      modifies this
      ensures Valid()
      ensures parameters == old(parameters)[i := (old(parameters)[i].0, None)]
    {
      var name := parameters[i].0;
      PutAt(parameters, i, None);
      ghost var next := Put(parameters, name, None);
      assert next == parameters[i := (name, None)];
      assert name in Keys(parameters) by {
        assert Keys(parameters)[i] == name;
      }
      var err := Reset(name);
    }

    /** `pick(name, default)` on the current table. */
    function PickValue(name: string, default: V): (v: V)
      reads this
      ensures name !in Keys(parameters) ==> v == default
    {
      Pick(parameters, name, default)
    }
  }
}
