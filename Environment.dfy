/** The runtime scope chain: each environment holds its own bindings and a link to the
    enclosing one. Lookups and assignments walk outward to the nearest scope that holds
    the name; definitions only ever touch the innermost scope. */
module Environment {
  import opened Outcomes

  /** The bindings of a chain of scopes, innermost first. */
  type Scopes<V> = seq<map<string, V>>

  /** The value of `name` in the nearest scope that binds it. */
  function Lookup<V>(scopes: Scopes<V>, name: string): Option<V>
    decreases |scopes|
  {
    if scopes == [] then None
    else if name in scopes[0] then Some(scopes[0][name])
    else Lookup(scopes[1..], name)
  }

  /** The index of the nearest scope binding `name`, or the chain's length when none does. */
  function Nearest<V>(scopes: Scopes<V>, name: string): (i: nat)
    ensures i <= |scopes|
    ensures i < |scopes| ==> name in scopes[i]
    ensures forall j :: 0 <= j < i ==> name !in scopes[j]
    decreases |scopes|
  {
    if scopes == [] then 0
    else if name in scopes[0] then 0
    else 1 + Nearest(scopes[1..], name)
  }

  /** The chain after assigning `value` to `name`, or `None` when no scope binds it. */
  function AssignIn<V>(scopes: Scopes<V>, name: string, value: V): Option<Scopes<V>>
    decreases |scopes|
  {
    if scopes == [] then None
    else if name in scopes[0] then Some([scopes[0][name := value]] + scopes[1..])
    else
      match AssignIn(scopes[1..], name, value)
      case None => None
      case Some(rest) => Some([scopes[0]] + rest)
  }

  /** A lookup finds the nearest binding: it fails exactly when no scope binds the name. */
  lemma {:induction false} LookupNearest<V>(scopes: Scopes<V>, name: string)
    ensures Lookup(scopes, name).Some? <==> Nearest(scopes, name) < |scopes|
    ensures Lookup(scopes, name).Some? ==> Lookup(scopes, name).value == scopes[Nearest(scopes, name)][name]
    decreases |scopes|
  {
    if scopes != [] && name !in scopes[0] {
      LookupNearest(scopes[1..], name);
    }
  }

  /** Assignment succeeds exactly for a bound name and rewrites only the nearest scope
      that binds it, at that name: it never creates a binding and leaves every other
      scope as it was. */
  lemma {:induction false} AssignNearestOnly<V>(scopes: Scopes<V>, name: string, value: V)
    ensures AssignIn(scopes, name, value).Some? <==> Nearest(scopes, name) < |scopes|
    ensures AssignIn(scopes, name, value).Some? ==>
      var after, i := AssignIn(scopes, name, value).value, Nearest(scopes, name);
      && |after| == |scopes|
      && after[i] == scopes[i][name := value]
      && forall j :: 0 <= j < |scopes| && j != i ==> after[j] == scopes[j]
    decreases |scopes|
  {
    if scopes != [] && name !in scopes[0] {
      AssignNearestOnly(scopes[1..], name, value);
      var r := AssignIn(scopes[1..], name, value);
      if r.Some? {
        var after := [scopes[0]] + r.value;
        forall j | 1 <= j < |scopes|
          ensures after[j] == r.value[j - 1]
        {
        }
      }
    }
  }

  /** After a successful assignment the name reads back as the assigned value, and every
      other name reads as before. */
  lemma {:induction false} AssignThenLookup<V>(scopes: Scopes<V>, name: string, value: V, other: string)
    requires AssignIn(scopes, name, value).Some?
    ensures Lookup(AssignIn(scopes, name, value).value, name) == Some(value)
    ensures other != name ==> Lookup(AssignIn(scopes, name, value).value, other) == Lookup(scopes, other)
    decreases |scopes|
  {
    var after := AssignIn(scopes, name, value).value;
    if name in scopes[0] {
      assert after[1..] == scopes[1..];
    } else {
      AssignThenLookup(scopes[1..], name, value, other);
      assert after[1..] == AssignIn(scopes[1..], name, value).value;
    }
  }

  /** Defining a name in the innermost scope shadows every outer binding of it, and leaves
      the lookup of every other name alone. */
  lemma DefineShadows<V>(scopes: Scopes<V>, name: string, value: V, other: string)
    requires scopes != []
    ensures Lookup([scopes[0][name := value]] + scopes[1..], name) == Some(value)
    ensures other != name ==> Lookup([scopes[0][name := value]] + scopes[1..], other) == Lookup(scopes, other)
  {
    var after := [scopes[0][name := value]] + scopes[1..];
    assert after[1..] == scopes[1..];
  }

  /** One scope. `parent` is the enclosing environment (`null` at the outermost one) and
      `values` its own bindings. `Repr` is the chain from this scope outward. */
  class Env<V> {
    var parent: Env?<V>
    var values: map<string, V>
    ghost var Repr: set<Env<V>>

    ghost predicate Valid()
      reads this, Repr
      decreases Repr
    {
      && this in Repr
      && (parent == null ==> Repr == {this})
      && (parent != null ==>
            && parent in Repr && Repr == {this} + parent.Repr && this !in parent.Repr
            && parent.Valid())
    }

    /** The bindings of the chain, innermost first. */
    ghost function Scopes(): Scopes<V>
      requires Valid()
      reads this, Repr
      decreases Repr
    {
      [values] + (if parent == null then [] else parent.Scopes())
    }

    constructor (parent: Env?<V>)
      requires parent != null ==> parent.Valid()
      ensures Valid() && this.parent == parent && values == map[]
      ensures Scopes() == [map[]] + (if parent == null then [] else parent.Scopes())
    {
      this.parent := parent;
      values := map[];
      Repr := {this} + (if parent == null then {} else parent.Repr);
    }

    /** `define`: bind `name` in this scope, replacing any binding it already had here. */
    method Define(name: string, value: V)
      requires Valid()
      modifies this`values
      ensures Valid() && values == old(values)[name := value]
      ensures Scopes() == [old(values)[name := value]] + old(Scopes())[1..]
    {
      values := values[name := value];
    }

    /** `assign`: update the nearest scope binding `name`; an error when none does. */
    method Assign(name: string, value: V) returns (r: Result<(), string>)
      requires Valid()
      modifies set e | e in Repr :: e`values
      ensures Valid()
      ensures match AssignIn(old(Scopes()), name, value)
        case None => r == Err("Undefined variable '" + name + "'") && Scopes() == old(Scopes())
        case Some(after) => r.Ok? && Scopes() == after
      decreases Repr
    {
      if name in values {
        values := values[name := value];
        r := Ok(());
      } else if parent != null {
        assert old(Scopes())[1..] == parent.Scopes();
        r := parent.Assign(name, value);
      } else {
        assert old(Scopes()) == [values];
        assert AssignIn(old(Scopes())[1..], name, value) == None;
        r := Err("Undefined variable '" + name + "'");
      }
    }

    /** `get`: the value in the nearest scope binding `name`; an error when none does. */
    function Get(name: string): (r: Result<V, string>)
      requires Valid()
      reads this, Repr
      ensures match Lookup(Scopes(), name)
        case None => r == Err("Undefined variable '" + name + "'")
        case Some(v) => r == Ok(v)
      decreases Repr
    {
      if name in values then Ok(values[name])
      else if parent != null then parent.Get(name)
      else Err("Undefined variable '" + name + "'")
    }
  }
}
