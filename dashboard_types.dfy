/** The value types shared by the dashboard: a balloon position, one hour's
    snapshot of every balloon, and the per-hour record the feed produces. */
module DashboardTypes {

  /** A value that may be absent (JavaScript `undefined` / `null`). */
  datatype Option<+T> = None | Some(value: T)

  /** `BalloonPosition`: the triple [latitude, longitude, altitude]. */
  datatype Position = Position(lat: real, lng: real, alt: real)

  /** `ConstellationSnapshot`: one position per balloon; the index is the balloon's id. */
  type Snapshot = seq<Position>

  /** `BalloonData`: the snapshot fetched for one hour of the 24-hour window. */
  datatype BalloonData = BalloonData(hour: int, data: Snapshot)

  /** The instant recorded as `lastFetch`; its value is never inspected. */
  datatype Timestamp = Timestamp(millis: int)

  /** `data[id]`: the element at index `id`, or absent (`undefined`) when `id`
      is out of range. */
  function Lookup<T>(data: seq<T>, id: int): Option<T>
  {
    if 0 <= id < |data| then Some(data[id]) else None
  }
}
