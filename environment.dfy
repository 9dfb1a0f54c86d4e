/**
 * A chain of scopes (environment/environment.go). Each scope maps names to values and may
 * enclose an outer scope. The outer pointer is fixed at creation, so the chain itself never
 * changes; only the bindings of a scope are updated in place.
 */
module Environment {
  import opened Tokens
  import opened LoxError

  // ---------------------------------------------------------------------------------------
  // The chain as a value: a sequence of scopes, innermost first.

  type Scopes<V> = seq<map<string, V>>

  /** The index of the innermost scope that binds `name`, if any. */
  function Resolve<V>(scopes: Scopes<V>, name: string): (r: Option<nat>)
    ensures r.Some? ==> r.value < |scopes| && name in scopes[r.value]
    ensures r.Some? ==> forall j | 0 <= j < r.value :: name !in scopes[j]
    ensures r.None? ==> forall j | 0 <= j < |scopes| :: name !in scopes[j]
  {
    if scopes == [] then None
    else if name in scopes[0] then Some(0)
    else match Resolve(scopes[1..], name)
      case None => None
      case Some(i) => Some(i + 1)
  }

  /** The error both Get and Assign raise for a name no scope binds. */
  function Undefined<V>(name: Token): Error<V>
  {
    RuntimeErr(name, "Undefined variable '" + name.lexeme + "'")
  }

  /** What `Get` yields: the binding in the innermost scope that has one, else the error. */
  function Lookup<V>(scopes: Scopes<V>, name: Token): (r: Result<V, V>)
    ensures r.Ok? <==> exists j | 0 <= j < |scopes| :: name.lexeme in scopes[j]
    ensures !r.Ok? ==> r == Err(Undefined(name))
  {
    match Resolve(scopes, name.lexeme)
    case Some(i) => Ok(scopes[i][name.lexeme])
    case None => Err(Undefined(name))
  }

  /** The chain after `Define(name, v)` on its innermost scope. */
  function DefineIn<V>(scopes: Scopes<V>, name: string, v: V): Scopes<V>
    requires |scopes| > 0
  {
    scopes[0 := scopes[0][name := v]]
  }

  /** The chain after a successful `Assign(name, v)`, or None when no scope binds `name`. */
  function AssignIn<V>(scopes: Scopes<V>, name: string, v: V): Option<Scopes<V>>
  {
    match Resolve(scopes, name)
    case Some(i) => Some(scopes[i := scopes[i][name := v]])
    case None => None
  }

  /** After Define(n, v), getting n yields v, and every other name resolves as before. */
  lemma DefineThenGet<V>(scopes: Scopes<V>, name: Token, v: V, other: Token)
    requires |scopes| > 0
    ensures Lookup(DefineIn(scopes, name.lexeme, v), name) == Ok(v)
    ensures other.lexeme != name.lexeme ==>
              Lookup(DefineIn(scopes, name.lexeme, v), other) == Lookup(scopes, other)
  {
    if other.lexeme != name.lexeme {
      var s := DefineIn(scopes, name.lexeme, v);
      ResolveSameKeys(scopes, s, other.lexeme);
      assert forall j | 0 <= j < |s| && other.lexeme in s[j] :: s[j][other.lexeme] == scopes[j][other.lexeme];
    }
  }

  /** Resolution of a name depends only on which scopes bind it. */
  lemma {:induction false} ResolveSameKeys<V>(s: Scopes<V>, t: Scopes<V>, name: string)
    requires |s| == |t|
    requires forall j | 0 <= j < |s| :: (name in s[j] <==> name in t[j])
    ensures Resolve(s, name) == Resolve(t, name)
  {
    if s != [] && name !in s[0] {
      ResolveSameKeys(s[1..], t[1..], name);
    }
  }

  /**
   * Assign succeeds exactly when some scope binds the name. It then rebinds the name in the
   * innermost such scope only: no binding is created, every other scope is unchanged, getting
   * the name yields the new value and every other name resolves as before.
   */
  lemma AssignThenGet<V>(scopes: Scopes<V>, name: Token, v: V, other: Token)
    ensures AssignIn(scopes, name.lexeme, v).None? <==> Lookup(scopes, name).Err?
    ensures AssignIn(scopes, name.lexeme, v).Some? ==>
              var s := AssignIn(scopes, name.lexeme, v).value;
              && |s| == |scopes|
              && (forall j | 0 <= j < |s| :: s[j].Keys == scopes[j].Keys)
              && (forall j | 0 <= j < |s| && j != Resolve(scopes, name.lexeme).value :: s[j] == scopes[j])
              && Lookup(s, name) == Ok(v)
              && (other.lexeme != name.lexeme ==> Lookup(s, other) == Lookup(scopes, other))
  {
    match Resolve(scopes, name.lexeme)
    case None =>
    case Some(i) =>
      var s := scopes[i := scopes[i][name.lexeme := v]];
      ResolveSameKeys(scopes, s, name.lexeme);
      if other.lexeme != name.lexeme {
        ResolveSameKeys(scopes, s, other.lexeme);
        assert forall j | 0 <= j < |s| && other.lexeme in s[j] :: s[j][other.lexeme] == scopes[j][other.lexeme];
      }
  }

  /** Assigning in a chain split into its innermost scope and the rest: the head first, then the rest. */
  lemma AssignInCons<V>(head: map<string, V>, rest: Scopes<V>, name: string, v: V)
    ensures name in head ==> AssignIn([head] + rest, name, v) == Some([head[name := v]] + rest)
    ensures name !in head && AssignIn(rest, name, v).None? ==> AssignIn([head] + rest, name, v).None?
    ensures name !in head && AssignIn(rest, name, v).Some? ==>
              AssignIn([head] + rest, name, v) == Some([head] + AssignIn(rest, name, v).value)
  {
    var s := [head] + rest;
    assert s[0] == head && s[1..] == rest;
    if name in head {
      assert s[0 := s[0][name := v]] == [head[name := v]] + rest;
    } else {
      match Resolve(rest, name)
      case None =>
      case Some(i) =>
        assert s[i + 1 := s[i + 1][name := v]] == [head] + rest[i := rest[i][name := v]];
    }
  }

  // ---------------------------------------------------------------------------------------
  // The chain as linked objects.

  class Environment<V> {
    const enclosing: Environment?<V>
    const Repr: set<object>
    var values: map<string, V>

    /** The chain is finite and acyclic; Repr is this scope and all scopes it encloses. */
    ghost predicate Valid()
      decreases Repr
    {
      && this in Repr
      && (enclosing == null ==> Repr == {this})
      && (enclosing != null ==>
            && enclosing in Repr && this !in enclosing.Repr
            && Repr == {this} + enclosing.Repr
            && enclosing.Valid())
    }

    /** The bindings of this scope and of every enclosing one, innermost first. */
    function Scopes(): (s: Scopes<V>)
      reads Repr
      requires Valid()
      ensures |s| > 0 && s[0] == values
      decreases Repr
    {
      [values] + (if enclosing == null then [] else enclosing.Scopes())
    }

    /** `NewEnvironment()` when `outer` is null, `NewEnvironment(outer)` otherwise. */
    constructor (outer: Environment?<V>)
      requires outer != null ==> outer.Valid()
      ensures Valid() && enclosing == outer
      ensures Repr == {this} + (if outer == null then {} else outer.Repr)
      ensures Scopes() == [map[]] + (if outer == null then [] else outer.Scopes())
    {
      enclosing := outer;
      values := map[];
      Repr := {this} + (if outer == null then {} else outer.Repr);
    }

    /** Bind `name` in this scope, overwriting any binding it has here. */
    method Define(name: string, value: V)
      requires Valid()
      modifies this`values
      ensures values == old(values)[name := value]
      ensures Scopes() == DefineIn(old(Scopes()), name, value)
    {
      values := values[name := value];
    }

    method Get(name: Token) returns (r: Result<V, V>)
      requires Valid()
      ensures r == Lookup(Scopes(), name)
      decreases Repr
    {
      if name.lexeme in values {
        return Ok(values[name.lexeme]);
      }
      if enclosing != null {
        r := enclosing.Get(name);
        return;
      }
      return Err(Undefined(name));
    }

    method Assign(name: Token, value: V) returns (r: Result<(), V>)
      requires Valid()
      modifies Repr
      ensures AssignIn(old(Scopes()), name.lexeme, value).None? ==>
                r == Err(Undefined(name)) && Scopes() == old(Scopes())
      ensures AssignIn(old(Scopes()), name.lexeme, value).Some? ==>
                r == Ok(()) && Scopes() == AssignIn(old(Scopes()), name.lexeme, value).value
      decreases Repr
    {
      ghost var rest := if enclosing == null then [] else enclosing.Scopes();
      assert old(Scopes()) == [values] + rest;
      AssignInCons(values, rest, name.lexeme, value);
      if name.lexeme in values {
        values := values[name.lexeme := value];
        return Ok(());
      }
      if enclosing != null {
        r := enclosing.Assign(name, value);
        assert Scopes() == [values] + enclosing.Scopes();
        return;
      }
      return Err(Undefined(name));
    }
  }
}
