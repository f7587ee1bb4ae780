/** The records the client receives from the backend (src/types/waste.ts). */
module WasteTypes {
  import opened Wrappers

  /** The `type` tag of a status response: 'SPECIAL' | 'STANDARD' | 'NONE'.
      `NoService` is the wire value 'NONE' (renamed so it does not clash with Option.None). */
  datatype ScheduleKind = Special | Standard | NoService

  /** The resolved status of one village for today, as the server sends it. */
  datatype ScheduleResponse = ScheduleResponse(
    kind: ScheduleKind,
    message: string,
    isCancelled: bool,
    time: Option<string>,
    wasteType: Option<string>,
    note: Option<string>)

  /** A drop-off point. `coordinates` is stored as the pair [longitude, latitude],
      the position order fixed by section 3.1.1 of RFC 7946 (GeoJSON). The numbers
      themselves are opaque here, hence the type parameter. */
  datatype Location<C> = Location(
    id: string,
    name: string,
    kind: string,
    addressHint: string,
    coordinates: (C, C))
}
