/**
 * How LangGraph merges a node's partial update into the state: a field with
 * a reducer annotation combines its current value with the incoming one, any
 * other field named in the update is replaced, fields the update does not
 * name are left as they are, and an empty update or a `None` return changes
 * nothing.
 */
module Merge {
  import opened Values
  import opened Wrappers
  import JokesReducers

  /**
   * The merge rules these agents declare: plain fields are replaced;
   * `Annotated[..., operator.add]` and `add_messages` lists are appended to
   * (messages are never replaced by id here); `Annotated[..., joke_reducer]`
   * lists follow joke_reducer.
   */
  datatype Reducer = Replace | Append | JokeReducer

  /** A field's reducer as declared by the state class; undeclared means Replace. */
  function ReducerOf<K>(schema: map<K, Reducer>, k: K): Reducer {
    if k in schema then schema[k] else Replace
  }

  function Reduce(r: Reducer, current: Value, incoming: Value): Value {
    match r
    case Replace => incoming
    case Append => VList(Items(current) + Items(incoming))
    case JokeReducer => VList(JokesReducers.JokeReducer(Items(current), Items(incoming)))
  }

  /** The state after merging update `u` into `s`. */
  function Apply<K>(schema: map<K, Reducer>, s: map<K, Value>, u: map<K, Value>): map<K, Value> {
    map k | k in s.Keys + u.Keys :: if k in u then Reduce(ReducerOf(schema, k), Get(s, k), u[k]) else s[k]
  }

  /** A node that may return `None` instead of a dict. */
  function ApplyResult<K>(schema: map<K, Reducer>, s: map<K, Value>, u: Option<map<K, Value>>): map<K, Value> {
    match u
    case None => s
    case Some(w) => Apply(schema, s, w)
  }

  /** `{}` is a no-op. */
  lemma ApplyEmpty<K>(schema: map<K, Reducer>, s: map<K, Value>)
    ensures Apply(schema, s, map[]) == s
  {
  }

  /** A field the update does not name keeps its value. */
  lemma ApplyUntouched<K>(schema: map<K, Reducer>, s: map<K, Value>, u: map<K, Value>, k: K)
    requires k !in u
    ensures Get(Apply(schema, s, u), k) == Get(s, k)
  {
  }

  /** A field the update names is replaced, appended to or joke-reduced, as its reducer says. */
  lemma ApplyWrites<K>(schema: map<K, Reducer>, s: map<K, Value>, u: map<K, Value>, k: K)
    requires k in u
    ensures ReducerOf(schema, k) == Replace ==> Get(Apply(schema, s, u), k) == u[k]
    ensures ReducerOf(schema, k) == Append ==> Get(Apply(schema, s, u), k) == VList(Items(Get(s, k)) + Items(u[k]))
    ensures ReducerOf(schema, k) == JokeReducer ==>
              Get(Apply(schema, s, u), k) == VList(if Items(u[k]) == [] then [] else Items(Get(s, k)) + Items(u[k]))
  {
  }

  /**
   * Two updates that name disjoint fields give the same state whichever is
   * merged first: the order in which the members of a fan-out finish does
   * not matter when they write different fields.
   */
  lemma ApplyCommutes<K>(schema: map<K, Reducer>, s: map<K, Value>, u: map<K, Value>, v: map<K, Value>)
    requires u.Keys !! v.Keys
    ensures Apply(schema, Apply(schema, s, u), v) == Apply(schema, Apply(schema, s, v), u)
  {
    var a := Apply(schema, Apply(schema, s, u), v);
    var b := Apply(schema, Apply(schema, s, v), u);
    assert a.Keys == b.Keys;
    forall k | k in a.Keys ensures a[k] == b[k] {
      if k in u {
        assert Get(Apply(schema, s, v), k) == Get(s, k);
      } else if k in v {
        assert Get(Apply(schema, s, u), k) == Get(s, k);
      }
    }
  }
}
