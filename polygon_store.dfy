/** The client-side polygon store: one collection of records and the four
    actions that reassign it. */
module PolygonStore {
  import opened Records

  /** The collection that remains when every record named `name` is filtered
      out (the predicate of `deletePolygon`). */
  function WithoutName(xs: seq<Polygon>, name: string): (r: seq<Polygon>)
    ensures |r| <= |xs|
  {
    if xs == [] then []
    else if xs[0].name != name then [xs[0]] + WithoutName(xs[1..], name)
    else WithoutName(xs[1..], name)
  }

  /** The positions of `xs` whose record is not named `name`, in increasing
      order: the positions a filter by name keeps. */
  function KeptIndices(xs: seq<Polygon>, name: string): (ks: seq<nat>)
    ensures |ks| <= |xs|
    ensures forall k :: 0 <= k < |ks| ==> ks[k] < |xs| && xs[ks[k]].name != name
    ensures forall k, l :: 0 <= k < l < |ks| ==> ks[k] < ks[l]
    ensures forall i :: 0 <= i < |xs| && xs[i].name != name ==> i in ks
    decreases |xs|
  {
    if xs == [] then []
    else
      var ks := KeptIndices(xs[..|xs| - 1], name);
      if xs[|xs| - 1].name != name then ks + [|xs| - 1] else ks
  }

  /** A record survives deletion exactly when it was there and has another name. */
  lemma {:induction false} WithoutNameMembers(xs: seq<Polygon>, name: string)
    ensures forall p :: p in WithoutName(xs, name) <==> p in xs && p.name != name
  {
    if xs != [] {
      WithoutNameMembers(xs[1..], name);
      assert xs == [xs[0]] + xs[1..];
    }
  }

  /** Filtering a concatenation filters each part and keeps them in order. */
  lemma {:induction false} WithoutNameConcat(a: seq<Polygon>, b: seq<Polygon>, name: string)
    ensures WithoutName(a + b, name) == WithoutName(a, name) + WithoutName(b, name)
  {
    if a == [] {
      assert a + b == b;
    } else {
      assert (a + b)[0] == a[0];
      assert (a + b)[1..] == a[1..] + b;
      WithoutNameConcat(a[1..], b, name);
    }
  }

  /** The survivors of a deletion are exactly the records at the kept
      positions, in their original relative order. */
  lemma {:induction false} WithoutNameOrder(xs: seq<Polygon>, name: string)
    ensures |WithoutName(xs, name)| == |KeptIndices(xs, name)|
    ensures forall k :: 0 <= k < |KeptIndices(xs, name)| ==>
      WithoutName(xs, name)[k] == xs[KeptIndices(xs, name)[k]]
    decreases |xs|
  {
    if xs != [] {
      var init, last := xs[..|xs| - 1], xs[|xs| - 1];
      assert xs == init + [last];
      WithoutNameConcat(init, [last], name);
      assert [last][1..] == [];
      WithoutNameOrder(init, name);
    }
  }

  /** Deletion never grows the collection, and leaves its length unchanged
      exactly when no record has the name, in which case nothing changes. */
  lemma {:induction false} WithoutNameLength(xs: seq<Polygon>, name: string)
    ensures |WithoutName(xs, name)| == |xs| <==> forall i :: 0 <= i < |xs| ==> xs[i].name != name
    ensures (forall i :: 0 <= i < |xs| ==> xs[i].name != name) ==> WithoutName(xs, name) == xs
  {
    if xs != [] {
      WithoutNameLength(xs[1..], name);
      assert forall i :: 1 <= i < |xs| ==> xs[i] == xs[1..][i - 1];
      if forall i :: 0 <= i < |xs[1..]| ==> xs[1..][i].name != name {
        assert forall i :: 1 <= i < |xs| ==> xs[i].name != name;
      }
      assert xs == [xs[0]] + xs[1..];
    }
  }

  /** Deleting the same name twice is the same as deleting it once. */
  lemma {:induction false} WithoutNameIdempotent(xs: seq<Polygon>, name: string)
    ensures WithoutName(WithoutName(xs, name), name) == WithoutName(xs, name)
  {
    if xs != [] {
      WithoutNameIdempotent(xs[1..], name);
      if xs[0].name != name {
        var rest := WithoutName(xs[1..], name);
        assert ([xs[0]] + rest)[0] == xs[0];
        assert ([xs[0]] + rest)[1..] == rest;
      }
    }
  }

  /** Deleting by the name of a record just saved removes it again, and leaves
      the earlier collection when no earlier record shared that name. */
  lemma DeleteUndoesSave(xs: seq<Polygon>, p: Polygon)
    requires forall i :: 0 <= i < |xs| ==> xs[i].name != p.name
    ensures WithoutName(xs + [p], p.name) == xs
  {
    WithoutNameConcat(xs, [p], p.name);
    WithoutNameLength(xs, p.name);
    assert [p][1..] == [];
  }

  /** The shared polygon collection. Persistence to browser storage is not
      modelled: the store lives in memory. */
  class Store {
    var polygons: seq<Polygon>

    /** The store starts with an empty collection. */
    constructor ()
      ensures polygons == []
    {
      polygons := [];
    }

    /** Appends `p` after every record already held. */
    method SavePolygon(p: Polygon)
      modifies this
      ensures polygons == old(polygons) + [p]
    {
      polygons := polygons + [p];
    }

    /** Empties the collection whatever it held. */
    method ClearAllPolygons()
      modifies this
      ensures polygons == []
    {
      polygons := [];
    }

    /** Replaces the whole collection with `xs`. */
    method EditPolygons(xs: seq<Polygon>)
      modifies this
      ensures polygons == xs
    {
      polygons := xs;
    }

    /** Removes every record whose name is `target`'s name; the others keep
      their relative order (see WithoutNameOrder). */
    method DeletePolygon(target: Polygon)
      modifies this
      ensures polygons == WithoutName(old(polygons), target.name)
      ensures forall p :: p in polygons <==> p in old(polygons) && p.name != target.name
      ensures |polygons| <= |old(polygons)|
    {
      WithoutNameMembers(polygons, target.name);
      polygons := WithoutName(polygons, target.name);
    }
  }

  /** Replacing the collection with `c` and then saving `r` leaves `c` with
      `r` appended, whatever the store held before. */
  method ReplaceThenSave(s: Store, c: seq<Polygon>, r: Polygon)
    modifies s
    ensures s.polygons == c + [r]
  {
    s.EditPolygons(c);
    s.SavePolygon(r);
  }

  /** A second deletion by the same name changes nothing. */
  method DeleteTwice(s: Store, target: Polygon)
    modifies s
    ensures s.polygons == WithoutName(old(s.polygons), target.name)
  {
    s.DeletePolygon(target);
    s.DeletePolygon(target);
    WithoutNameIdempotent(old(s.polygons), target.name);
  }
}
