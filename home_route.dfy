/** The home page: the list of stored polygons, a details drawer for the
    clicked polygon, and its edit and delete actions. */
module HomeRoute {
  import opened Records
  import opened PolygonStore

  /** The collection rebuilt by an edit: every record named `selected`
      becomes the draft's fields with that record's own coordinates; every
      other record is passed through. */
  function EditByName(xs: seq<Polygon>, selected: string, draft: Polygon): (r: seq<Polygon>)
    ensures |r| == |xs|
  {
    if xs == [] then []
    else
      var head := if xs[0].name == selected then draft.(coordinates := xs[0].coordinates) else xs[0];
      [head] + EditByName(xs[1..], selected, draft)
  }

  /** Position by position: a record with another name stays where it was,
      unchanged; a record with the selected name is replaced by the draft
      carrying the record's original coordinates. */
  lemma {:induction false} EditByNameAt(xs: seq<Polygon>, selected: string, draft: Polygon)
    ensures forall i :: 0 <= i < |xs| ==>
      EditByName(xs, selected, draft)[i] ==
        if xs[i].name == selected then draft.(coordinates := xs[i].coordinates) else xs[i]
  {
    if xs != [] {
      EditByNameAt(xs[1..], selected, draft);
      assert forall i :: 1 <= i < |xs| ==> xs[i] == xs[1..][i - 1];
    }
  }

  /** An edit never moves a shape: every position keeps its coordinates. */
  lemma EditByNameKeepsCoordinates(xs: seq<Polygon>, selected: string, draft: Polygon)
    ensures forall i :: 0 <= i < |xs| ==>
      EditByName(xs, selected, draft)[i].coordinates == xs[i].coordinates
  {
    EditByNameAt(xs, selected, draft);
  }

  /** When no record carries the selected name the edit changes nothing. */
  lemma {:induction false} EditByNameNoMatch(xs: seq<Polygon>, selected: string, draft: Polygon)
    requires forall i :: 0 <= i < |xs| ==> xs[i].name != selected
    ensures EditByName(xs, selected, draft) == xs
  {
    if xs != [] {
      assert forall i :: 1 <= i < |xs| ==> xs[i] == xs[1..][i - 1];
      EditByNameNoMatch(xs[1..], selected, draft);
      assert xs == [xs[0]] + xs[1..];
    }
  }

  /** Repeating the same edit changes nothing more. */
  lemma {:induction false} EditByNameIdempotent(xs: seq<Polygon>, selected: string, draft: Polygon)
    ensures EditByName(EditByName(xs, selected, draft), selected, draft) == EditByName(xs, selected, draft)
  {
    if xs != [] {
      var r := EditByName(xs, selected, draft);
      EditByNameIdempotent(xs[1..], selected, draft);
      assert r[1..] == EditByName(xs[1..], selected, draft);
    }
  }

  /** A rename leaves no record under the old name, so deleting by the old
      name afterwards removes nothing. */
  lemma EditByNameRenames(xs: seq<Polygon>, selected: string, draft: Polygon)
    requires draft.name != selected
    ensures WithoutName(EditByName(xs, selected, draft), selected) == EditByName(xs, selected, draft)
  {
    EditByNameAt(xs, selected, draft);
    WithoutNameLength(EditByName(xs, selected, draft), selected);
  }

  /** The value `editData` holds before any polygon is clicked. The source's
      initial value has only a name and a price; the other fields, absent
      there, are given neutral values here. */
  const InitialEditData: Polygon := Polygon(None, "", 0.0, [], "")

  /** The page state: drawer visibility, the clicked polygon, the edit toggle
      and the edit draft, over the shared store. */
  class HomePage {
    const store: Store
    var open: bool
    var selected: Option<Polygon>
    var edit: bool
    var editData: Polygon

    constructor (store: Store)
      ensures this.store == store
      ensures !open && selected == None && !edit && editData == InitialEditData
    {
      this.store := store;
      open, selected, edit, editData := false, None, false, InitialEditData;
    }

    /** Clicking a polygon selects it, loads it into the edit draft and opens
      the drawer. */
    method PolygonClick(p: Polygon)
      modifies this
      ensures selected == Some(p) && editData == p && open
      ensures edit == old(edit)
    {
      selected := Some(p);
      editData := p;
      open := true;
    }

    /** The Edit and the Cancel buttons both negate the edit toggle. */
    method ToggleEdit()
      modifies this
      ensures edit == !old(edit)
      ensures open == old(open) && selected == old(selected) && editData == old(editData)
    {
      edit := !edit;
    }

    /** The drawer's own open/close request. */
    method SetOpen(b: bool)
      modifies this
      ensures open == b
      ensures edit == old(edit) && selected == old(selected) && editData == old(editData)
    {
      open := b;
    }

    /** The name input changes only the draft's name. */
    method EditName(name: string)
      modifies this
      ensures editData == old(editData).(name := name)
      ensures open == old(open) && edit == old(edit) && selected == old(selected)
    {
      editData := editData.(name := name);
    }

    /** The price input changes only the draft's price (already parsed). */
    method EditPrice(price: real)
      modifies this
      ensures editData == old(editData).(price := price)
      ensures open == old(open) && edit == old(edit) && selected == old(selected)
    {
      editData := editData.(price := price);
    }

    /** Rebuilds the collection with the selected polygon's namesakes edited,
      hands it to the store's replace-all and closes the drawer and the edit
      mode. With nothing selected the rebuild fails (`ok` is false and nothing
      changes) as soon as one record is inspected; an empty collection is
      rebuilt without inspecting any. */
    method EditPolygon() returns (ok: bool)
      modifies this, store
      ensures ok <==> old(selected).Some? || old(store.polygons) == []
      ensures ok ==> store.polygons == (if old(selected).Some?
                                       then EditByName(old(store.polygons), old(selected).value.name, old(editData))
                                       else [])
      ensures ok ==> !open && !edit
      ensures ok ==> selected == old(selected) && editData == old(editData)
      ensures !ok ==> store.polygons == old(store.polygons)
      ensures !ok ==> open == old(open) && edit == old(edit)
      ensures !ok ==> selected == old(selected) && editData == old(editData)
    {
      var rebuilt: seq<Polygon>;
      if selected.Some? {
        rebuilt := EditByName(store.polygons, selected.value.name, editData);
      } else if store.polygons == [] {
        rebuilt := [];
      } else {
        return false;
      }
      store.EditPolygons(rebuilt);
      open := false;
      edit := false;
      ok := true;
    }

    /** Deletes every record named like the selected polygon and closes the
      drawer. With nothing selected the store's filter fails on the first
      record it inspects (`ok` is false and nothing changes). */
    method DeleteSelected() returns (ok: bool)
      modifies this, store
      ensures ok <==> old(selected).Some? || old(store.polygons) == []
      ensures ok ==> store.polygons == (if old(selected).Some?
                                       then WithoutName(old(store.polygons), old(selected).value.name)
                                       else [])
      ensures ok ==> !open
      ensures !ok ==> store.polygons == old(store.polygons) && open == old(open)
      ensures edit == old(edit) && selected == old(selected) && editData == old(editData)
    {
      if selected.Some? {
        store.DeletePolygon(selected.value);
      } else if store.polygons != [] {
        return false;
      }
      open := false;
      ok := true;
    }
  }
}
