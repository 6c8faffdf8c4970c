/**
 * The records the screens of the map-annotation app share, and the local
 * key-value store (AsyncStorage) they read and write.
 */
module Domain {

  datatype Option<+T> = None | Some(value: T)

  /** A map position in degrees. */
  datatype Coord = Coord(latitude: real, longitude: real)

  /**
   * A reported problem (MarkerData). The app stores `date` as an ISO-8601
   * string and compares the parsed times; here it is that time, as an
   * integer timestamp.
   */
  datatype Marker = Marker(
    id: string,
    coordinate: Coord,
    problemType: string,
    description: string,
    date: int)

  /**
   * A saved route (RouteData). All screens share the `@routes` entry but
   * not its shape: the map screen records a description and a date, the
   * map view an empty description and no date, so both fields are
   * optional here, as they are in storage.
   */
  datatype Route = Route(
    id: string,
    coordinates: seq<Coord>,
    name: string,
    description: Option<string>,
    date: Option<int>)

  function MarkerId(m: Marker): string { m.id }

  function RouteId(r: Route): string { r.id }

  /** A parsed JSON value, for the entries stored as plain objects. */
  datatype Json =
    | JNull
    | JBool(b: bool)
    | JNumber(n: real)
    | JString(s: string)
    | JArray(items: seq<Json>)
    | JObject(fields: map<string, Json>)

  /** What a store entry holds once parsed. */
  datatype Value =
    | MarkerList(markers: seq<Marker>)
    | RouteList(routes: seq<Route>)
    | Document(doc: Json)

  /** Whether an AsyncStorage call resolved or rejected. */
  datatype Outcome = Succeeded | Failed

  const MarkersKey: string := "@markers"
  const RoutesKey: string := "@routes"
  const ProfileKey: string := "@user_profile"
  const PreferencesKey: string := "@user_preferences"

  /**
   * The device-local store. Every screen holds a reference to the same
   * store; a read or write either completes or fails as a whole.
   */
  class KeyValueStore {
    var entries: map<string, Value>

    constructor (entries: map<string, Value>)
      ensures this.entries == entries
    {
      this.entries := entries;
    }

    /** getItem: the entry under `key`, None when the key is missing. */
    function GetItem(key: string): (v: Option<Value>)
      reads this
      ensures v.Some? <==> key in entries
      ensures v.Some? ==> v.value == entries[key]
    {
      if key in entries then Some(entries[key]) else None
    }

    /** setItem: on success the entry is replaced, on failure nothing changes. */
    method SetItem(key: string, value: Value, outcome: Outcome)
      modifies this
      ensures entries == if outcome == Succeeded then old(entries)[key := value] else old(entries)
    {
      if outcome == Succeeded {
        entries := entries[key := value];
      }
    }
  }
}
