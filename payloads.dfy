/** The emergency data returned by the backend and kept in the cache, as the
    application's code sees it after `response.json()` or `JSON.parse`.
    Distances are floating-point numbers in the source; here they are kept as
    the text a template literal would print. */
module Payloads {

  datatype Shelter = Shelter(name: string, distance: string, address: string, capacity: string)

  datatype EvacuationRoute = EvacuationRoute(name: string, description: string)

  datatype GasStation = GasStation(name: string, distance: string, address: string, fuelAvailable: bool)

  datatype EmergencyInfo = EmergencyInfo(
    shelters: seq<Shelter>,
    evacuationRoutes: seq<EvacuationRoute>,
    gasStations: seq<GasStation>)

  /** A parsed JSON value: a falsy one (`null`, `undefined`, `0`, `""`,
      `false`), an emergency-data object, or any other truthy value, which
      lacks the three arrays. */
  datatype Payload = Falsy | Info(info: EmergencyInfo) | OtherTruthy

  predicate Truthy(p: Payload) {
    !p.Falsy?
  }
}
