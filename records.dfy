/** The values shared by every part of the application: map coordinates and
    the polygon record that the store persists. */
module Records {

  /** A value that may be absent (a field the source leaves undefined). */
  datatype Option<+T> = None | Some(value: T)

  /** A map point. The application only copies coordinates and never does
      arithmetic on them, so an integer pair stands for the latitude/longitude
      pair of the map widget. */
  datatype Coordinate = Coordinate(lat: int, lng: int)

  /** A polygon record as the store holds it. `id` is never assigned by the
      application, so records it creates carry `None`. */
  datatype Polygon = Polygon(
    id: Option<string>,
    name: string,
    price: real,
    coordinates: seq<Coordinate>,
    color: string)
}
