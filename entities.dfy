/** The records the screens receive from the REST API, as plain values. */
module Entities {

  /** Kotlin's nullable reference: `None` stands for `null`. */
  datatype Option<+T> = None | Some(value: T)

  /** A (latitude, longitude) pair; the source's `Pair<Double, Double>` and `LatLng`. */
  datatype Coordinate = Coordinate(lat: real, lng: real)

  datatype PostImage = PostImage(imageUrl: string, description: string)

  /** A "play space" as the detail and home screens use it. */
  datatype Post = Post(
    id: int,
    postType: string,
    title: string,
    summary: string,
    content: string,
    subContent: string,
    duration: string,
    holiday: string,
    telephone: string,
    url: string,
    latitude: real,
    longitude: real,
    postImages: seq<PostImage>)

  /** A category facet: `code` is sent to the server, `description` is shown on a chip. */
  datatype FilterTypeResponse = FilterTypeResponse(code: string, description: string)

  /** A region facet with the number of posts it holds. */
  datatype Region = Region(code: string, name: string, cnt: int)

  /** One entry of the map screen's bottom-sheet data. */
  datatype PlaceSummary = PlaceSummary(id: int, title: string, address: string, placeType: string)
}
