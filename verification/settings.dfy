/**
 * The graphics settings tree shared by the designer page, the overlay and the
 * server: a JSON value whose objects are keyed by strings. Paths are
 * sequences of keys, as produced by splitting a dotted setting name.
 */
module Settings {
  import opened Wrappers

  datatype Json =
    | JNull
    | JBool(b: bool)
    | JInt(i: int)
    | JStr(s: string)
    | JArr(items: seq<Json>)
    | JObj(fields: map<string, Json>)

  /** The value reached by following `path` through nested objects. */
  function Lookup(j: Json, path: seq<string>): Option<Json>
    decreases |path|
  {
    if path == [] then Some(j)
    else if j.JObj? && path[0] in j.fields then Lookup(j.fields[path[0]], path[1..])
    else None
  }

  /** Following `p + q` is following `p` and then `q` from wherever `p` led. */
  lemma {:induction false} LookupAppend(j: Json, p: seq<string>, q: seq<string>)
    ensures Lookup(j, p + q) == if Lookup(j, p).Some? then Lookup(Lookup(j, p).value, q) else None
    decreases |p|
  {
    if p == [] {
      assert p + q == q;
    } else {
      assert (p + q)[1..] == p[1..] + q;
      if j.JObj? && p[0] in j.fields {
        LookupAppend(j.fields[p[0]], p[1..], q);
      }
    }
  }

  predicate IsPrefix(p: seq<string>, q: seq<string>)
  {
    |p| <= |q| && q[..|p|] == p
  }

  /** Two paths with the same first key are prefix-related exactly when their tails are. */
  lemma PrefixCons(p: seq<string>, q: seq<string>)
    requires p != [] && q != [] && p[0] == q[0]
    ensures IsPrefix(p, q) <==> IsPrefix(p[1..], q[1..])
  {
    if IsPrefix(p[1..], q[1..]) {
      assert q[..|p|] == [q[0]] + q[1..][..|p| - 1];
    }
  }

  /**
   * Writes `v` under the last key of `path`. Every key before the last must
   * name an existing object and the container of the last key must be an
   * object; the last key is created if it is missing. `None` when the walk
   * fails.
   */
  function Put(j: Json, path: seq<string>, v: Json): Option<Json>
    requires path != []
    decreases |path|
  {
    if !j.JObj? then None
    else if |path| == 1 then Some(JObj(j.fields[path[0] := v]))
    else if path[0] !in j.fields then None
    else match Put(j.fields[path[0]], path[1..], v)
      case None => None
      case Some(child) => Some(JObj(j.fields[path[0] := child]))
  }

  /** A write succeeds exactly when the container the path leads to is an object. */
  lemma {:induction false} PutDefinedIff(j: Json, path: seq<string>, v: Json)
    requires path != []
    ensures Put(j, path, v).Some? <==>
      (Lookup(j, path[..|path| - 1]).Some? && Lookup(j, path[..|path| - 1]).value.JObj?)
    decreases |path|
  {
    if j.JObj? && |path| > 1 && path[0] in j.fields {
      PutDefinedIff(j.fields[path[0]], path[1..], v);
      assert path[1..][..|path[1..]| - 1] == path[..|path| - 1][1..];
    }
  }

  /** After a successful write the path leads to the value written. */
  lemma {:induction false} PutThenLookup(j: Json, path: seq<string>, v: Json)
    requires path != [] && Put(j, path, v).Some?
    ensures Lookup(Put(j, path, v).value, path) == Some(v)
    decreases |path|
  {
    if |path| > 1 {
      PutThenLookup(j.fields[path[0]], path[1..], v);
    }
  }

  /**
   * A write changes nothing on a path that neither leads into nor lies
   * above the written key: every other leaf keeps its value.
   */
  lemma {:induction false} PutKeepsOtherPaths(j: Json, path: seq<string>, v: Json, other: seq<string>)
    requires path != [] && Put(j, path, v).Some?
    requires !IsPrefix(path, other) && !IsPrefix(other, path)
    ensures Lookup(Put(j, path, v).value, other) == Lookup(j, other)
    decreases |path|
  {
    var r := Put(j, path, v).value;
    assert other != [];
    if other[0] != path[0] {
      assert other[0] in r.fields <==> other[0] in j.fields;
      if other[0] in j.fields {
        assert r.fields[other[0]] == j.fields[other[0]];
      }
    } else {
      PrefixCons(path, other);
      PrefixCons(other, path);
      PutKeepsOtherPaths(j.fields[path[0]], path[1..], v, other[1..]);
    }
  }
}
