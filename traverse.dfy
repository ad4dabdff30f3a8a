/**
 * Lookups into a parsed document: the safe nested lookup `get_nested` and
 * the depth-first key search `find_first_key_recursive`.
 */
module Traverse {
  import opened Wrappers
  import opened JsonValue

  // ---------------------------------------------------------------------------
  // get_nested

  /** The value `get_nested(d, path, default)` returns, stated by recursion on the path. */
  function NestedGet(d: Json, path: seq<string>, default: Json): (r: Json)
    ensures path == [] ==> r == d
    ensures path != [] && !d.JObj? ==> r == default
    decreases |path|
  {
    if path == [] then d
    else if d.JObj? && HasKey(d.fields, path[0]) then
      NestedGet(Lookup(d.fields, path[0]).value, path[1..], default)
    else default
  }

  /** Following a path through a tree of distinct keys ends at a tree of distinct keys (or the default). */
  lemma {:induction false} NestedGetKeepsDistinctKeys(d: Json, path: seq<string>, default: Json)
    requires DistinctKeys(d) && DistinctKeys(default)
    ensures DistinctKeys(NestedGet(d, path, default))
    decreases |path|
  {
    if path != [] && d.JObj? && HasKey(d.fields, path[0]) {
      LookupKeepsDistinctKeys(d.fields, path[0]);
      NestedGetKeepsDistinctKeys(Lookup(d.fields, path[0]).value, path[1..], default);
    }
  }

  /**
   * `vs` records a walk that resolves `path` from `d`: each `vs[i]` is an
   * object binding `path[i]` to `vs[i + 1]`.
   */
  ghost predicate IsChain(d: Json, path: seq<string>, vs: seq<Json>) {
    && |vs| == |path| + 1
    && vs[0] == d
    && forall i :: 0 <= i < |path| ==> vs[i].JObj? && Lookup(vs[i].fields, path[i]) == Some(vs[i + 1])
  }

  /**
   * The meaning of `get_nested`: when the whole path resolves, the value at its
   * end; as soon as a segment is absent or a non-object is traversed, the
   * default. The empty path resolves to `d` itself.
   */
  lemma {:induction false} NestedGetSpec(d: Json, path: seq<string>, default: Json)
    ensures forall vs :: IsChain(d, path, vs) ==> NestedGet(d, path, default) == vs[|path|]
    ensures (exists vs :: IsChain(d, path, vs)) || NestedGet(d, path, default) == default
    decreases |path|
  {
    if path == [] {
      assert IsChain(d, path, [d]);
    } else if d.JObj? && HasKey(d.fields, path[0]) {
      var v := Lookup(d.fields, path[0]).value;
      NestedGetSpec(v, path[1..], default);
      forall vs: seq<Json> | IsChain(d, path, vs)
        ensures NestedGet(d, path, default) == vs[|path|]
      {
        assert vs[1] == v;
        assert IsChain(v, path[1..], vs[1..]) by {
          forall i | 0 <= i < |path[1..]|
            ensures vs[1..][i].JObj? && Lookup(vs[1..][i].fields, path[1..][i]) == Some(vs[1..][i + 1])
          {
            assert vs[1..][i] == vs[i + 1] && path[1..][i] == path[i + 1];
          }
        }
      }
      if ws :| IsChain(v, path[1..], ws) {
        var vs := [d] + ws;
        assert IsChain(d, path, vs) by {
          forall i | 0 <= i < |path|
            ensures vs[i].JObj? && Lookup(vs[i].fields, path[i]) == Some(vs[i + 1])
          {
            if i > 0 {
              assert vs[i] == ws[i - 1] && vs[i + 1] == ws[i] && path[i] == path[1..][i - 1];
            }
          }
        }
      }
    } else {
      assert forall vs: seq<Json> :: IsChain(d, path, vs) ==> Lookup(vs[0].fields, path[0]) == Some(vs[1]);
    }
  }

  /**
   * `get_nested`: walks the path one segment at a time, returning the default
   * as soon as the current value is not an object holding the segment.
   */
  method GetNested(d: Json, path: seq<string>, default: Json) returns (r: Json)
    ensures r == NestedGet(d, path, default)
  {
    var cur := d;
    var i := 0;
    while i < |path|
      invariant 0 <= i <= |path|
      invariant NestedGet(cur, path[i..], default) == NestedGet(d, path, default)
    {
      assert path[i..][1..] == path[i + 1..];
      if cur.JObj? && HasKey(cur.fields, path[i]) {
        cur := Lookup(cur.fields, path[i]).value;
      } else {
        return default;
      }
      i := i + 1;
    }
    assert path[i..] == [];
    r := cur;
  }

  // ---------------------------------------------------------------------------
  // find_first_key_recursive

  /** The number of children an array or an object holds. */
  function ChildCount(parent: Json): nat {
    match parent
    case JArr(items) => |items|
    case JObj(fields) => |fields|
    case _ => 0
  }

  /** Child `i` of an array or an object, in iteration order (`obj.values()`). */
  function Child(parent: Json, i: nat): (c: Json)
    requires i < ChildCount(parent)
    ensures c < parent
  {
    match parent
    case JArr(items) => items[i]
    case JObj(fields) => fields[i].1
  }

  /**
   * `find_first_key_recursive(obj, key)`: an object's own binding of `key` is
   * returned (even when it is None); otherwise the children are searched in
   * order and the first non-None hit wins. `JNull` stands for None.
   */
  function FindFirstKey(obj: Json, key: string): Json
    decreases obj, 1, 0
  {
    match obj
    case JObj(fields) =>
      (match Lookup(fields, key)
       case Some(v) => v
       case None => FindInChildren(obj, 0, key))
    case JArr(_) => FindInChildren(obj, 0, key)
    case _ => JNull
  }

  /** The loop over the children of `parent` from child `i` on. */
  function FindInChildren(parent: Json, i: nat, key: string): Json
    decreases parent, 0, ChildCount(parent) - i
  {
    if i >= ChildCount(parent) then JNull
    else
      var found := FindFirstKey(Child(parent, i), key);
      if found != JNull then found else FindInChildren(parent, i + 1, key)
  }

  /** Some object inside `j` (or `j` itself) binds `key` to `v`. */
  ghost predicate Occurs(j: Json, key: string, v: Json)
    decreases j
  {
    (j.JObj? && exists i :: 0 <= i < |j.fields| && j.fields[i] == (key, v))
    || exists i :: 0 <= i < ChildCount(j) && Occurs(Child(j, i), key, v)
  }

  /** The children loop returns the hit of the first child whose search succeeds. */
  lemma {:induction false} FindInChildrenFirstHit(parent: Json, i: nat, key: string)
    ensures var r := FindInChildren(parent, i, key);
      && (r == JNull ==> forall k :: i <= k < ChildCount(parent) ==> FindFirstKey(Child(parent, k), key) == JNull)
      && (r != JNull ==> exists k :: i <= k < ChildCount(parent) && FindFirstKey(Child(parent, k), key) == r
                           && forall m :: i <= m < k ==> FindFirstKey(Child(parent, m), key) == JNull)
    decreases ChildCount(parent) - i
  {
    if i < ChildCount(parent) && FindFirstKey(Child(parent, i), key) == JNull {
      FindInChildrenFirstHit(parent, i + 1, key);
    }
  }

  /** A hit is a value that `key` is bound to in some object inside `obj`. */
  lemma {:induction false} FindFirstKeySound(obj: Json, key: string)
    ensures FindFirstKey(obj, key) != JNull ==> Occurs(obj, key, FindFirstKey(obj, key))
    decreases obj
  {
    var r := FindFirstKey(obj, key);
    if r != JNull && (obj.JArr? || obj.JObj?) {
      if obj.JObj? && HasKey(obj.fields, key) {
        assert r == Lookup(obj.fields, key).value;
      } else {
        FindInChildrenFirstHit(obj, 0, key);
        var k :| 0 <= k < ChildCount(obj) && FindFirstKey(Child(obj, k), key) == r;
        FindFirstKeySound(Child(obj, k), key);
      }
    }
  }

  /**
   * When no object inside `obj` binds `key` to None, the search finds a
   * binding whenever one exists. (A None binding ends the search of the object
   * that holds it, hiding that object's descendants.)
   */
  lemma {:induction false} FindFirstKeyComplete(obj: Json, key: string, v: Json)
    requires Occurs(obj, key, v) && v != JNull
    requires !Occurs(obj, key, JNull)
    ensures FindFirstKey(obj, key) != JNull
    decreases obj
  {
    if obj.JObj? && HasKey(obj.fields, key) {
      var w := Lookup(obj.fields, key).value;
      assert Occurs(obj, key, w);
    } else {
      var k :| 0 <= k < ChildCount(obj) && Occurs(Child(obj, k), key, v);
      assert Occurs(Child(obj, k), key, JNull) ==> Occurs(obj, key, JNull);
      FindFirstKeyComplete(Child(obj, k), key, v);
      FindInChildrenFirstHit(obj, 0, key);
    }
  }

  /** An object's own binding wins over every descendant's, even a None binding. */
  lemma FindFirstKeyPrefersOwn(fields: seq<(string, Json)>, key: string, v: Json)
    requires Lookup(fields, key) == Some(v)
    ensures FindFirstKey(JObj(fields), key) == v
  {
  }
}
