# Polygon map editor — a Dafny model of its record bookkeeping

The application lets a user draw polygons on a map, label each with a name,
a price and a color, keep them in a client-side store, and later edit or
delete them. This project models the bookkeeping part of it:

- the polygon store (`PolygonStore`, `polygon_store.dfy`): one sequence of
  records and its four actions — append, clear, replace all, delete by name;
- the home page (`HomeRoute`, `home_route.dfy`): selecting a polygon, the
  edit toggle, the edit draft, the name-matched rebuild of the collection
  that an edit hands to replace-all, and delete of the selected polygon;
- the click-to-draw page (`ClickApp`, `click_app.dfy`): the marker and path
  lists that each click extends and undo shortens, and the three-point save
  guard with the payload it builds;
- the add-polygon form (`AddPolygonRoute`, `add_polygon_route.dfy`): the
  dialog flag and the draft that a finished shape, the inputs, the color
  picker and cancel update, the save-disabled condition, and the record
  that save hands to the store.

`records.dfy` (`Records`) holds the shared values: coordinates (an integer
pair, since the code only copies them), and the polygon record, whose `id`
is optional because the code never assigns one.

State that the source changes in place is a class per component (`Store`,
`HomePage`, `App`, `MapContent`); each handler is a method whose
postcondition states the whole new state. The new collections are pure
functions (`WithoutName`, `EditByName`, `DropLast`, `RecordOf`), and the
properties of those functions are proved as lemmas: deletion keeps exactly
the records with other names, in their original order (against the
independent index list `KeptIndices`), never grows the list, and is
idempotent; an edit keeps length and coordinates, replaces only namesakes
and is idempotent; undo cancels a click.

The model keeps these behaviours of the code:

- Records get no `id`: the form's save builds a record of name, price,
  coordinates and color only.
- The add-polygon form does not check the number of points; only the
  click-to-draw page refuses a save with fewer than three.
- The click-to-draw page's undo has no drawing-state guard: it works at any time.
- Delete and edit match by name, so every record sharing the selected name
  is deleted or overwritten together.
- With nothing selected, the edit and delete handlers fail (a null
  dereference inside the list callback) only when the list is non-empty; on
  an empty list they complete. The methods return `ok` for this.

## Model

| member | source | states |
|---|---|---|
| PolygonStore.Store.constructor | src/store/usePolygonStore.ts:7 | the store starts with an empty collection |
| PolygonStore.Store.SavePolygon | src/store/usePolygonStore.ts:10-13 | the new collection is the old one with the record appended at the end |
| PolygonStore.Store.ClearAllPolygons | src/store/usePolygonStore.ts:16 | the collection is empty whatever it held |
| PolygonStore.Store.EditPolygons | src/store/usePolygonStore.ts:17 | the collection becomes exactly the given sequence |
| PolygonStore.Store.DeletePolygon | src/store/usePolygonStore.ts:18-23 | the collection becomes the filter by the target's name; a record remains iff it was there and has another name; the length does not grow |
| PolygonStore.WithoutName | src/store/usePolygonStore.ts:20-22 | filtering by name never yields more records than it was given |
| PolygonStore.KeptIndices | src/store/usePolygonStore.ts:20-22 | the strictly increasing list of exactly the positions whose record has another name |
| PolygonStore.WithoutNameMembers | src/store/usePolygonStore.ts:20-22 | a record is in the result iff it is in the input and its name differs |
| PolygonStore.WithoutNameConcat | src/store/usePolygonStore.ts:20-22 | the filter of a concatenation is the concatenation of the filters, so relative order is kept |
| PolygonStore.WithoutNameOrder | src/store/usePolygonStore.ts:20-22 | the result lists the records at the kept positions, in increasing position order |
| PolygonStore.WithoutNameLength | src/store/usePolygonStore.ts:20-22 | the length is unchanged iff no record has the name, and then the collection is unchanged |
| PolygonStore.WithoutNameIdempotent | src/store/usePolygonStore.ts:20-22 | deleting the same name twice equals deleting it once |
| PolygonStore.DeleteUndoesSave | src/store/usePolygonStore.ts:10-23 | appending a record whose name no earlier record uses and deleting by that name restores the collection |
| PolygonStore.ReplaceThenSave | src/store/usePolygonStore.ts:10-17 | replace-all with C followed by save of R leaves C + [R], whatever was there before |
| PolygonStore.DeleteTwice | src/store/usePolygonStore.ts:18-23 | two deletions by one name leave what one deletion leaves |
| HomeRoute.EditByName | src/routes/Home.tsx:73-81 | the rebuilt list has the same length as the collection |
| HomeRoute.EditByNameAt | src/routes/Home.tsx:74-80 | at each position a record with another name is unchanged, and a namesake becomes the draft with that record's own coordinates |
| HomeRoute.EditByNameKeepsCoordinates | src/routes/Home.tsx:77 | every position keeps its coordinates through an edit |
| HomeRoute.EditByNameNoMatch | src/routes/Home.tsx:73-81 | with no namesake in the collection the rebuild is the collection itself |
| HomeRoute.EditByNameIdempotent | src/routes/Home.tsx:73-81 | repeating the same edit changes nothing more |
| HomeRoute.EditByNameRenames | src/routes/Home.tsx:73-81 | after a rename no record keeps the old name, so deleting it removes nothing |
| HomeRoute.HomePage.constructor | src/routes/Home.tsx:47-54 | the drawer is closed, nothing is selected, edit mode is off and the draft holds an empty name and zero price |
| HomeRoute.HomePage.PolygonClick | src/routes/Home.tsx:66-70 | the clicked polygon becomes the selection and the draft, and the drawer opens |
| HomeRoute.HomePage.ToggleEdit | src/routes/Home.tsx:186-204 | the Edit and Cancel buttons negate the edit flag and change nothing else |
| HomeRoute.HomePage.SetOpen | src/routes/Home.tsx:156 | the drawer's own request sets only the open flag |
| HomeRoute.HomePage.EditName | src/routes/Home.tsx:170-175 | the name input changes only the draft's name |
| HomeRoute.HomePage.EditPrice | src/routes/Home.tsx:179-184 | the price input changes only the draft's price |
| HomeRoute.HomePage.EditPolygon | src/routes/Home.tsx:72-91 | the store is replaced by the name-matched rebuild and the drawer and edit mode close; with no selection it fails exactly when the list is non-empty, changing nothing |
| HomeRoute.HomePage.DeleteSelected | src/routes/Home.tsx:205-214 | the store deletes by the selected polygon's name and the drawer closes; with no selection it fails exactly when the list is non-empty, changing nothing |
| ClickApp.DropLast | src/App.tsx:27-28 | an empty list stays empty; otherwise the result followed by the dropped last element is the input |
| ClickApp.UndoCancelsClick | src/App.tsx:19-28 | dropping the last element after appending a point gives back the list before |
| ClickApp.App.constructor | src/App.tsx:8-9 | both lists start empty, hence in step |
| ClickApp.App.MapClick | src/App.tsx:12-23 | the clicked point is appended to both lists, which stay in step if they were |
| ClickApp.App.UndoLastMarker | src/App.tsx:26-29 | both lists lose their last point (none when empty) and stay in step if they were |
| ClickApp.App.SavePolygon | src/App.tsx:32-45 | no payload iff fewer than three points, which is also exactly when `App.ShowsPolygon` (the overlay guard of src/App.tsx:78) is false; otherwise the payload is the fixed name, the path and the markers |
| ClickApp.ClickThenUndo | src/App.tsx:12-29 | a click followed by an undo restores both lists exactly |
| AddPolygonRoute.RecordOf | src/routes/AddPolygon.tsx:381-386 | the saved record has no id and copies the draft's name, price, coordinates and color |
| AddPolygonRoute.RecordOfRoundTrip | src/routes/AddPolygon.tsx:381-386 | the draft can be read back from its record, and an id-less record is the record of its own draft |
| AddPolygonRoute.EnabledSaveIsValid | src/routes/AddPolygon.tsx:472-474 | when `SaveDisabled` (the button's disabled condition, src/routes/AddPolygon.tsx:472-474) is false the record has a non-empty name and a positive price; the default draft is disabled |
| AddPolygonRoute.MapContent.constructor | src/routes/AddPolygon.tsx:357-364 | the dialog is closed, the draft holds the defaults and no shape is remembered |
| AddPolygonRoute.MapContent.PolygonComplete | src/routes/AddPolygon.tsx:368-378 | the dialog opens, only the draft's coordinates change and the shape is remembered |
| AddPolygonRoute.MapContent.SavePolygon | src/routes/AddPolygon.tsx:380-393 | the draft's record is appended to the store and the dialog closes; the draft is kept; when the button was enabled the appended record has a non-empty name and a positive price |
| AddPolygonRoute.MapContent.CancelPolygon | src/routes/AddPolygon.tsx:395-406 | the dialog closes and the draft returns to no points, empty name, zero price and the first palette color, so save is disabled |
| AddPolygonRoute.MapContent.ColorChange | src/routes/AddPolygon.tsx:408-416 | only the draft's color changes |
| AddPolygonRoute.MapContent.NameInput | src/routes/AddPolygon.tsx:438-443 | only the draft's name changes |
| AddPolygonRoute.MapContent.PriceInput | src/routes/AddPolygon.tsx:447-457 | only the draft's price changes |
| AddPolygonRoute.MapContent.SetModal | src/routes/AddPolygon.tsx:427 | the dialog's own request sets only the dialog flag |
| AddPolygonRoute.SaveThenDelete | src/routes/AddPolygon.tsx:380-387 | saving a form whose name is new and deleting by that name restores the store |

## Left out

- Persistence: the store's write-through to browser local storage under the key "polygon-storage" is foreign I/O; the store is in memory.
- Rendering: markup, the map widget, toasts, alerts, console logging and navigation back are not modelled; of the rendering only the three-point guard for the polygon overlay is kept (`App.ShowsPolygon`).
- Vendor shape calls: removing the drawn shape from the map on cancel and recoloring it on a color pick are calls into the map widget; the model keeps only the shape handle.
- Number parsing: the price inputs pass `Number(...)` of the typed text; the methods take the parsed price, and a not-a-number price is not modelled.
- Home's initial draft has only a name and a price; the model fills the other fields with neutral values, which no handler can carry into the store.
- React's deferred state updates: each handler is modelled as one atomic step on the state.
- The click-to-draw page's save only builds and logs the payload (its network call is commented out); the model returns the payload.
- The drawing manager hook, the label overlay with its bounding-box centre and currency formatting, geolocation and routing are vendor glue or floating-point layout and are not part of this model.
