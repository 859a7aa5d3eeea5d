/**
 * Ember's lexical scopes.  An environment holds the bindings of one scope
 * and a reference to its enclosing scope, fixed when the scope is made; a
 * variable is looked up by walking the chain of scopes outwards.
 *
 * The chain seen from a scope is described by `Scopes()`, the bindings of
 * the scope itself followed by those of its ancestors, and every
 * operation is proved against the pure functions on such lists below.
 */
module Environments {
  import opened Util

  // ---------------------------------------------------------------
  // Chains of scopes as values
  // ---------------------------------------------------------------

  /** The value bound to `name` in the nearest scope that binds it. */
  function Lookup<V>(scopes: seq<map<string, V>>, name: string): (r: Option<V>)
    ensures r.None? <==> forall i :: 0 <= i < |scopes| ==> name !in scopes[i]
    decreases |scopes|
  {
    if scopes == [] then None
    else if name in scopes[0] then Some(scopes[0][name])
    else
      var r := Lookup(scopes[1..], name);
      assert forall i :: 1 <= i < |scopes| ==> scopes[i] == scopes[1..][i - 1];
      r
  }

  /** The index of the nearest scope that binds `name`. */
  function Owner<V>(scopes: seq<map<string, V>>, name: string): (k: nat)
    requires Lookup(scopes, name).Some?
    ensures k < |scopes| && name in scopes[k]
    ensures forall i :: 0 <= i < k ==> name !in scopes[i]
    ensures Lookup(scopes, name) == Some(scopes[k][name])
    decreases |scopes|
  {
    if name in scopes[0] then 0 else 1 + Owner(scopes[1..], name)
  }

  /** Rebinding `name` in the nearest scope that binds it; no scope gains a binding. */
  function Assign<V>(scopes: seq<map<string, V>>, name: string, value: V): (r: seq<map<string, V>>)
    ensures |r| == |scopes|
    decreases |scopes|
  {
    if scopes == [] then []
    else if name in scopes[0] then [scopes[0][name := value]] + scopes[1..]
    else [scopes[0]] + Assign(scopes[1..], name, value)
  }

  /** Binding `name` in the innermost scope, shadowing any outer binding. */
  function Bind<V>(scopes: seq<map<string, V>>, name: string, value: V): (r: seq<map<string, V>>)
    requires |scopes| > 0
    ensures |r| == |scopes| && r[0] == scopes[0][name := value] && r[1..] == scopes[1..]
  {
    [scopes[0][name := value]] + scopes[1..]
  }

  /** After an assignment, the name reads back as the assigned value if it was bound at all. */
  lemma {:induction false} LookupAfterAssign<V>(scopes: seq<map<string, V>>, name: string, value: V)
    ensures Lookup(Assign(scopes, name, value), name)
         == if Lookup(scopes, name).Some? then Some(value) else None
    decreases |scopes|
  {
    if scopes != [] && name !in scopes[0] {
      LookupAfterAssign(scopes[1..], name, value);
      var r := Assign(scopes, name, value);
      assert r[1..] == Assign(scopes[1..], name, value);
    }
  }

  /** An assignment to one name leaves every other name as it was. */
  lemma {:induction false} LookupOtherAfterAssign<V>(scopes: seq<map<string, V>>, name: string, other: string, value: V)
    requires other != name
    ensures Lookup(Assign(scopes, name, value), other) == Lookup(scopes, other)
    decreases |scopes|
  {
    if scopes != [] {
      var r := Assign(scopes, name, value);
      assert r[1..] == if name in scopes[0] then scopes[1..] else Assign(scopes[1..], name, value);
      if name !in scopes[0] {
        LookupOtherAfterAssign(scopes[1..], name, other, value);
      }
    }
  }

  /**
   * An assignment changes exactly one scope, the nearest that binds the
   * name, and only that name's value in it; without such a scope nothing
   * changes.  No scope gains or loses a binding.
   */
  lemma {:induction false} AssignChangesOnlyOwner<V>(scopes: seq<map<string, V>>, name: string, value: V)
    ensures Lookup(scopes, name).None? ==> Assign(scopes, name, value) == scopes
    ensures Lookup(scopes, name).Some? ==>
              var k := Owner(scopes, name);
              forall i :: 0 <= i < |scopes| ==>
                Assign(scopes, name, value)[i] == if i == k then scopes[i][name := value] else scopes[i]
    decreases |scopes|
  {
    if scopes != [] && name !in scopes[0] {
      AssignChangesOnlyOwner(scopes[1..], name, value);
      var r := Assign(scopes, name, value);
      assert r[1..] == Assign(scopes[1..], name, value);
      if Lookup(scopes, name).None? {
        assert r == [scopes[0]] + scopes[1..];
        assert [scopes[0]] + scopes[1..] == scopes;
      } else {
        assert Owner(scopes, name) == 1 + Owner(scopes[1..], name);
        forall i | 1 <= i < |scopes|
          ensures r[i] == if i == Owner(scopes, name) then scopes[i][name := value] else scopes[i]
        {
          assert r[i] == r[1..][i - 1];
          assert scopes[i] == scopes[1..][i - 1];
        }
      }
    }
  }

  /** A definition reads back at once, shadowing outer scopes. */
  lemma LookupAfterBind<V>(scopes: seq<map<string, V>>, name: string, value: V)
    requires |scopes| > 0
    ensures Lookup(Bind(scopes, name, value), name) == Some(value)
  {
  }

  /** A definition of one name leaves every other name as it was. */
  lemma LookupOtherAfterBind<V>(scopes: seq<map<string, V>>, name: string, other: string, value: V)
    requires |scopes| > 0 && other != name
    ensures Lookup(Bind(scopes, name, value), other) == Lookup(scopes, other)
  {
    assert Bind(scopes, name, value)[1..] == scopes[1..];
  }

  /** The bindings after defining `names[i]` as `vals[i]`, for each i in order, on top of `m`. */
  function DefineAll<V(==)>(m: map<string, V>, names: seq<string>, vals: seq<V>): (r: map<string, V>)
    requires |names| == |vals|
    ensures r.Keys == m.Keys + set n | n in names
    ensures forall n | n in r :: r[n] in m.Values || r[n] in vals
    ensures forall n | n in m && n !in names :: r[n] == m[n]
    decreases |names|
  {
    if names == [] then m
    else
      var k := |names| - 1;
      var r := DefineAll(m, names[..k], vals[..k]);
      assert forall n | n in names :: n in names[..k] || n == names[k];
      assert forall v | v in vals[..k] :: v in vals;
      r[names[k] := vals[k]]
  }

  /** When the names are distinct, each ends up bound to its own value. */
  lemma {:induction false} DefineAllBindsEach<V>(m: map<string, V>, names: seq<string>, vals: seq<V>)
    requires |names| == |vals|
    requires forall i, j | 0 <= i < j < |names| :: names[i] != names[j]
    ensures forall i | 0 <= i < |names| :: DefineAll(m, names, vals)[names[i]] == vals[i]
    decreases |names|
  {
    if names != [] {
      var k := |names| - 1;
      var r0 := DefineAll(m, names[..k], vals[..k]);
      assert DefineAll(m, names, vals) == r0[names[k] := vals[k]];
      DefineAllBindsEach(m, names[..k], vals[..k]);
      forall i | 0 <= i < k
        ensures DefineAll(m, names, vals)[names[i]] == vals[i]
      {
        assert names[..k][i] == names[i] && vals[..k][i] == vals[i];
        assert r0[names[i]] == vals[i];
        assert names[i] != names[k];
      }
    }
  }

  // ---------------------------------------------------------------
  // Scopes as objects
  // ---------------------------------------------------------------

  /** One scope: its bindings, which change, and its enclosing scope, which does not. */
  class Environment<V> {
    var values: map<string, V>
    const parent: Environment?<V>
    /** The enclosing scopes, nearest first in `Scopes()`. */
    const Ancestors: set<Environment<V>>
    /** How many scopes enclose this one. */
    const depth: nat

    /** The chain of enclosing scopes is finite and never loops back. */
    ghost predicate Valid()
      decreases depth
    {
      && this !in Ancestors
      && (parent == null ==> Ancestors == {} && depth == 0)
      && (parent != null ==>
            && depth == parent.depth + 1
            && Ancestors == {parent} + parent.Ancestors
            && parent.Valid())
    }

    /** The objects a look-up may read: this scope and its ancestors. */
    ghost function Repr(): set<Environment<V>> {
      {this} + Ancestors
    }

    /** The bindings of this scope, then those of each enclosing scope outwards. */
    ghost function Scopes(): (s: seq<map<string, V>>)
      requires Valid()
      reads Repr()
      ensures |s| == depth + 1 && s[0] == values
      decreases depth
    {
      [values] + if parent == null then [] else parent.Scopes()
    }

    /** A new scope, empty, enclosed by `parent` (a global scope when `parent` is null). */
    constructor (parent: Environment?<V>)
      requires parent != null ==> parent.Valid()
      ensures Valid() && values == map[] && this.parent == parent
      ensures parent != null ==> Ancestors == parent.Repr()
      ensures Scopes() == [map[]] + (if parent == null then [] else parent.Scopes())
    {
      values := map[];
      this.parent := parent;
      if parent == null {
        Ancestors := {};
        depth := 0;
      } else {
        Ancestors := {parent} + parent.Ancestors;
        depth := parent.depth + 1;
      }
    }

    /** Binds `name` in this scope only, shadowing the enclosing scopes and replacing a local binding. */
    method Define(name: string, value: V)
      requires Valid()
      modifies this
      ensures values == old(values)[name := value]
      ensures Scopes() == Bind(old(Scopes()), name, value)
    {
      assert parent != null ==> this !in parent.Repr();
      values := values[name := value];
      assert parent != null ==> parent.Scopes() == old(parent.Scopes());
    }

    /** The value of `name` in the nearest scope that binds it; None stands for the KeyError. */
    function Get(name: string): (r: Option<V>)
      requires Valid()
      reads Repr()
      ensures r == Lookup(Scopes(), name)
      decreases depth
    {
      if name in values then Some(values[name])
      else if parent != null then parent.Get(name)
      else None
    }

    /** Whether some scope of the chain binds `name`. */
    function Has(name: string): (b: bool)
      requires Valid()
      reads Repr()
      ensures b <==> Lookup(Scopes(), name).Some?
      decreases depth
    {
      if name in values then true
      else if parent != null then parent.Has(name)
      else false
    }

    /**
     * Rebinds `name` in the nearest scope that binds it; `found` is false,
     * for the KeyError, when no scope does, and then nothing changes.
     */
    method Set(name: string, value: V) returns (found: bool)
      requires Valid()
      modifies Repr()
      ensures found <==> Lookup(old(Scopes()), name).Some?
      ensures Scopes() == Assign(old(Scopes()), name, value)
      ensures forall e | e in Repr() :: e.values == old(e.values) || (name in old(e.values) && e.values == old(e.values)[name := value])
      decreases depth
    {
      if name in values {
        assert parent != null ==> this !in parent.Repr();
        values := values[name := value];
        assert parent != null ==> parent.Scopes() == old(parent.Scopes());
        return true;
      }
      if parent != null {
        found := parent.Set(name, value);
        assert values == old(values);
        return;
      }
      return false;
    }
  }

  /** `has` holds exactly when `get` succeeds. */
  lemma HasIffGet<V>(env: Environment<V>, name: string)
    requires env.Valid()
    ensures env.Has(name) <==> env.Get(name).Some?
  {
  }
}
