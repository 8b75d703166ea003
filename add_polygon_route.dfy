/** The add-polygon page: a shape finished on the map opens a form whose
    draft collects name, price and color before the record is saved. */
module AddPolygonRoute {
  import opened Records
  import opened PolygonStore

  /** One entry of the color palette. */
  datatype Swatch = Swatch(name: string, value: string)

  /** The palette offered by the color selector. */
  const PresetColors: seq<Swatch> := [
    Swatch("Sky Blue", "#87CEEB"),
    Swatch("Mint Green", "#98FF98"),
    Swatch("Light Coral", "#F08080"),
    Swatch("Lavender", "#E6E6FA"),
    Swatch("Peach", "#FFE5B4"),
    Swatch("Light Yellow", "#FFFFE0"),
    Swatch("Light Pink", "#FFB6C1"),
    Swatch("Light Cyan", "#E0FFFF"),
    Swatch("Thistle", "#D8BFD8"),
    Swatch("Wheat", "#F5DEB3")
  ]

  /** The form's draft of a polygon record. */
  datatype Draft = Draft(coordinates: seq<Coordinate>, name: string, price: real, color: string)

  /** The draft of an untouched form: no points, no name, zero price and the
      first palette color. */
  const DefaultDraft: Draft := Draft([], "", 0.0, PresetColors[0].value)

  /** The save button is disabled when the name is empty or the price is not
      positive. */
  predicate SaveDisabled(d: Draft) {
    d.name == "" || d.price <= 0.0
  }

  /** The record handed to the store: the draft's four fields and no id. */
  function RecordOf(d: Draft): (r: Polygon)
    ensures r.id == None
    ensures r.name == d.name && r.price == d.price
    ensures r.coordinates == d.coordinates && r.color == d.color
  {
    Polygon(None, d.name, d.price, d.coordinates, d.color)
  }

  /** The draft a stored record was made from. */
  function DraftOf(p: Polygon): Draft {
    Draft(p.coordinates, p.name, p.price, p.color)
  }

  /** Building the record loses nothing of the draft; a record without an id
      is exactly the record of its own draft. */
  lemma RecordOfRoundTrip(d: Draft, p: Polygon)
    ensures DraftOf(RecordOf(d)) == d
    ensures p.id == None ==> RecordOf(DraftOf(p)) == p
  {
  }

  /** A record saved through an enabled button has a name and a positive
      price; the untouched form cannot be saved. */
  lemma EnabledSaveIsValid(d: Draft)
    ensures !SaveDisabled(d) ==> RecordOf(d).name != "" && RecordOf(d).price > 0.0
    ensures SaveDisabled(DefaultDraft)
  {
  }

  /** An opaque handle on the map widget's drawn shape. */
  type ShapeHandle = nat

  /** The form state: the dialog flag, the draft and the last drawn shape. */
  class MapContent {
    const store: Store
    var modal: bool
    var draft: Draft
    var currentPolygon: Option<ShapeHandle>

    constructor (store: Store)
      ensures this.store == store
      ensures !modal && draft == DefaultDraft && currentPolygon == None
    {
      this.store := store;
      modal, draft, currentPolygon := false, DefaultDraft, None;
    }

    /** Whether the dialog's save button is disabled now. */
    predicate SaveButtonDisabled()
      reads this
    {
      SaveDisabled(draft)
    }

    /** A finished shape opens the dialog, copies its points into the draft
      (nothing else of the draft changes) and remembers the shape. */
    method PolygonComplete(coordinates: seq<Coordinate>, shape: ShapeHandle)
      modifies this
      ensures modal
      ensures draft == old(draft).(coordinates := coordinates)
      ensures currentPolygon == Some(shape)
    {
      modal := true;
      draft := draft.(coordinates := coordinates);
      currentPolygon := Some(shape);
    }

    /** Saves the draft's record into the store and closes the dialog. */
    method SavePolygon()
      modifies this, store
      ensures store.polygons == old(store.polygons) + [RecordOf(old(draft))]
      ensures !old(SaveButtonDisabled()) ==>
        var saved := store.polygons[|store.polygons| - 1]; saved.name != "" && saved.price > 0.0
      ensures !modal
      ensures draft == old(draft) && currentPolygon == old(currentPolygon)
    {
      store.SavePolygon(RecordOf(draft));
      modal := false;
    }

    /** Cancel closes the dialog and resets the draft to the defaults. */
    method CancelPolygon()
      modifies this
      ensures !modal && draft == DefaultDraft
      ensures currentPolygon == old(currentPolygon)
      ensures SaveButtonDisabled()
    {
      modal := false;
      draft := DefaultDraft;
    }

    /** A color pick changes only the draft's color. */
    method ColorChange(color: string)
      modifies this
      ensures draft == old(draft).(color := color)
      ensures modal == old(modal) && currentPolygon == old(currentPolygon)
    {
      draft := draft.(color := color);
    }

    /** The name input changes only the draft's name. */
    method NameInput(name: string)
      modifies this
      ensures draft == old(draft).(name := name)
      ensures modal == old(modal) && currentPolygon == old(currentPolygon)
    {
      draft := draft.(name := name);
    }

    /** The price input changes only the draft's price (already parsed). */
    method PriceInput(price: real)
      modifies this
      ensures draft == old(draft).(price := price)
      ensures modal == old(modal) && currentPolygon == old(currentPolygon)
    {
      draft := draft.(price := price);
    }

    /** The dialog's own open/close request. */
    method SetModal(b: bool)
      modifies this
      ensures modal == b
      ensures draft == old(draft) && currentPolygon == old(currentPolygon)
    {
      modal := b;
    }
  }

  /** Saving a form and then deleting by its name removes the new record, and
      leaves the earlier collection when no earlier record shared the name. */
  method SaveThenDelete(form: MapContent)
    requires forall i :: 0 <= i < |form.store.polygons| ==> form.store.polygons[i].name != form.draft.name
    modifies form, form.store
    ensures form.store.polygons == old(form.store.polygons)
  {
    var record := RecordOf(form.draft);
    form.SavePolygon();
    form.store.DeletePolygon(record);
    DeleteUndoesSave(old(form.store.polygons), record);
  }
}
