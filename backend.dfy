/**
 * Shapes of the values the app exchanges with its backend services: the
 * signed-in user, the documents of the `buses` and `routes` collections, the
 * outcome of reading one document, and a device position.
 */
module Backend {
  import opened Wrappers

  /** An authenticated user; `uid` is the identity provider's user id. */
  datatype User = User(uid: string)

  /** The data of a `buses/{busId}` document. `routeId` may be absent. */
  datatype BusData = BusData(model: string, routeId: Option<string>)

  /** The data of a `routes/{routeId}` document. */
  datatype RouteData = RouteData(startPoint: string, endPoint: string)

  /**
   * The outcome of `doc(..).get()`: the promise rejects (`ReadFailed`), or it
   * resolves to a snapshot that does not exist (`Missing`) or carries data.
   */
  datatype DocRead<T> = ReadFailed | Missing | Exists(data: T)

  /** Latitude and longitude of a fix, copied through unchanged. */
  datatype Coords = Coords(latitude: real, longitude: real)

  /** JavaScript truthiness of an optional string: present and non-empty. */
  predicate Truthy(s: Option<string>) {
    s.Some? && s.value != ""
  }
}
