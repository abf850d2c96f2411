/**
 * The slice of Python's dynamic value model that the configuration code relies on:
 * the values a safe YAML load produces (None, booleans, strings, lists, mappings),
 * the sets that `set()` builds from them, membership of a substring (`sub in s`),
 * and the exceptions raised when a value has the wrong shape.
 */
module PyValues {
  import opened Wrappers

  /** A Python value. Mapping keys are strings, as in every configuration document. */
  datatype Value =
    | Null
    | Bool(b: bool)
    | Str(s: string)
    | List(items: seq<Value>)
    | Set(elems: set<Value>)
    | Dict(entries: map<string, Value>)

  /** The exceptions the modelled code can raise. */
  datatype PyError =
    | TypeError
    | AttributeError
    | ValueError(message: string)
    | RuntimeError(message: string)

  /** The immutable values may go into a Python set; lists, sets and dicts are unhashable. */
  predicate Hashable(v: Value) {
    v.Null? || v.Bool? || v.Str?
  }

  /** Each string as a Python `str` value. */
  function Strs(names: seq<string>): (r: seq<Value>)
    ensures |r| == |names|
    ensures forall i :: 0 <= i < |names| ==> r[i] == Str(names[i])
  {
    if names == [] then [] else [Str(names[0])] + Strs(names[1..])
  }

  /**
   * What iterating over `v` yields, as a set: the items of a list or set, the
   * one-character strings of a string, the keys of a mapping. `None` means `v`
   * is not iterable (None and booleans).
   */
  function Iterated(v: Value): Option<set<Value>>
  {
    match v
    case List(xs) => Some(set x | x in xs)
    case Set(e) => Some(e)
    case Str(s) => Some(set c | c in s :: Str([c]))
    case Dict(m) => Some(set k | k in m.Keys :: Str(k))
    case _ => None
  }

  /** The elements `set(v)` would hold, or nothing when `set(v)` raises. */
  function Elems(v: Value): set<Value>
  {
    match Iterated(v)
    case Some(e) => e
    case None => {}
  }

  /**
   * Python's `set(v)`, and equally what `s.union(v)` and `s.difference(v)` take
   * from their argument: a `TypeError` when `v` is not iterable or yields an
   * unhashable element.
   */
  function ToSet(v: Value): (r: Result<set<Value>, PyError>)
    ensures r.Success? <==> Iterated(v).Some? && forall x :: x in Elems(v) ==> Hashable(x)
    ensures r.Success? ==> r.value == Elems(v)
    ensures r.Failure? ==> r.error == TypeError
  {
    match Iterated(v)
    case None => Failure(TypeError)
    case Some(e) => if forall x :: x in e ==> Hashable(x) then Success(e) else Failure(TypeError)
  }

  /** `s` begins with `p` (Python `s.startswith(p)`). */
  predicate StartsWith(s: string, p: string) {
    |p| <= |s| && s[..|p|] == p
  }

  /** Python's `sub in s` on strings: `sub` occurs somewhere in `s`. */
  predicate Contains(s: string, sub: string)
    decreases |s|
  {
    StartsWith(s, sub) || (|s| > 0 && Contains(s[1..], sub))
  }

  /** `sub` occurs in `s` at position `i`. */
  predicate OccursAt(s: string, sub: string, i: int) {
    0 <= i && i + |sub| <= |s| && s[i..i + |sub|] == sub
  }

  /** `Contains` is exactly "occurs at some position". */
  lemma {:induction false} ContainsIff(s: string, sub: string)
    ensures Contains(s, sub) <==> exists i :: OccursAt(s, sub, i)
    decreases |s|
  {
    if StartsWith(s, sub) {
      assert OccursAt(s, sub, 0);
    } else if |s| > 0 {
      ContainsIff(s[1..], sub);
      if i :| OccursAt(s, sub, i) {
        if i > 0 {
          assert s[1..][i - 1..i - 1 + |sub|] == s[i..i + |sub|];
          assert OccursAt(s[1..], sub, i - 1);
        }
      }
      if j :| OccursAt(s[1..], sub, j) {
        assert s[j + 1..j + 1 + |sub|] == s[1..][j..j + |sub|];
        assert OccursAt(s, sub, j + 1);
      }
    }
  }

  /**
   * Containment passes down to prefixes: when `tag` begins with `p`, every string
   * that contains `tag` contains `p`.
   */
  lemma {:induction false} ContainsPrefixOf(s: string, tag: string, p: string)
    requires StartsWith(tag, p)
    requires Contains(s, tag)
    ensures Contains(s, p)
    decreases |s|
  {
    if StartsWith(s, tag) {
      assert s[..|p|] == tag[..|p|];
    } else {
      ContainsPrefixOf(s[1..], tag, p);
    }
  }
}
