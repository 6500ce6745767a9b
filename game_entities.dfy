/**
 * The entity registry (src/lib/GameEntities.tsx): an insertion-ordered list of
 * entities and a name-indexed map. Removal filters the list only, so the map
 * keeps answering for a removed name. The default context value ignores
 * additions and removals, finds nothing and lists nothing.
 */
module GameEntities {
  import opened Base
  import opened GameObjects

  /** `Array.prototype.filter`. */
  function Filter<T>(s: seq<T>, keep: T -> bool): (r: seq<T>)
    ensures |r| <= |s|
    ensures forall x :: x in r ==> x in s && keep(x)
    ensures forall i :: 0 <= i < |s| && keep(s[i]) ==> s[i] in r
  {
    if s == [] then []
    else (if keep(s[0]) then [s[0]] else []) + Filter(s[1..], keep)
  }

  /** Filtering distributes over concatenation: kept entries stay in their relative order. */
  lemma {:induction false} FilterAppend<T>(a: seq<T>, b: seq<T>, keep: T -> bool)
    ensures Filter(a + b, keep) == Filter(a, keep) + Filter(b, keep)
  {
    if a == [] {
      assert a + b == b;
    } else {
      assert (a + b)[1..] == a[1..] + b;
      FilterAppend(a[1..], b, keep);
    }
  }

  /** Filtering twice with the same test is filtering once. */
  lemma {:induction false} FilterIdempotent<T>(s: seq<T>, keep: T -> bool)
    ensures Filter(Filter(s, keep), keep) == Filter(s, keep)
  {
    if s != [] {
      FilterIdempotent(s[1..], keep);
      var head := if keep(s[0]) then [s[0]] else [];
      FilterAppend(head, Filter(s[1..], keep), keep);
      if keep(s[0]) {
        assert [s[0]][1..] == [];
      }
    }
  }

  function NotNamed(n: string): GameObject -> bool
  {
    (e: GameObject) => e.name != n
  }

  function OfKind(t: string): GameObject -> bool
  {
    (e: GameObject) => e.kind == t
  }

  class Registry {
    const provided: bool
    var list: seq<GameObject>
    var byName: map<string, GameObject>

    constructor ()
      ensures provided && list == [] && byName == map[]
    {
      provided, list, byName := true, [], map[];
    }

    constructor Default()
      ensures !provided && list == [] && byName == map[]
    {
      provided, list, byName := false, [], map[];
    }

    /** Appends `e` (duplicates are kept) and indexes it under its name. */
    method AddEntity(e: GameObject)
      modifies this
      ensures provided ==> list == old(list) + [e] && GetEntity(e.name) == Some(e)
      ensures provided ==> forall t :: GetEntities(t) == old(GetEntities(t)) + (if e.kind == t then [e] else [])
      ensures forall n :: n != e.name ==> GetEntity(n) == old(GetEntity(n))
      ensures !provided ==> list == old(list) && byName == old(byName)
    {
      if provided {
        list := list + [e];
        byName := byName[e.name := e];
        forall t ensures GetEntities(t) == old(GetEntities(t)) + (if e.kind == t then [e] else []) {
          FilterAppend(old(list), [e], OfKind(t));
        }
      }
    }

    /** The last entity added under `n` (it survives `RemoveEntity(n)`). */
    function GetEntity(n: string): (r: Option<GameObject>)
      reads this
      ensures r.Some? ==> provided && n in byName && r.value == byName[n]
      ensures provided && n in byName ==> r.Some?
    {
      if provided && n in byName then Some(byName[n]) else None
    }

    /** Drops every list entry named `n`; the name index is left as it was. */
    method RemoveEntity(n: string)
      modifies this
      ensures provided ==> forall e :: e in list ==> e.name != n
      ensures provided ==> forall i :: 0 <= i < |old(list)| && old(list)[i].name != n ==> old(list)[i] in list
      ensures provided ==> list == Filter(old(list), NotNamed(n))
      ensures byName == old(byName) && GetEntity(n) == old(GetEntity(n))
      ensures !provided ==> list == old(list)
    {
      if provided {
        list := Filter(list, NotNamed(n));
      }
    }

    /** The list entries of type `t`, in insertion order. */
    function GetEntities(t: string): (r: seq<GameObject>)
      reads this
      ensures forall e :: e in r ==> provided && e in list && e.kind == t
      ensures provided ==> forall i :: 0 <= i < |list| && list[i].kind == t ==> list[i] in r
    {
      if provided then Filter(list, OfKind(t)) else []
    }
  }
}
