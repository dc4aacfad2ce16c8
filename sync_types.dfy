// Types shared by the sync manager and the storage adapters: the provider
// names, the envelope written to the remote file, and the settled outcome of
// the network calls an adapter makes.

module SyncTypes {
  import opened Common
  import opened Schema

  datatype ProviderType = ICloud | GDrive | Dropbox | OneDrive | WebDav

  /** `updatedAt` is the sender's local-change timestamp and `deviceId` the
      sender's identity (milliseconds since the epoch throughout). */
  datatype SyncMeta = SyncMeta(lastSyncedAt: int, updatedAt: int, deviceId: string)

  /** The remote file's content; the data is kept as JSON until validated. */
  datatype SyncPayload = SyncPayload(data: Raw, meta: SyncMeta)

  const SyncFilename: string := "subly-sync.json"

  /** The settled result of `fetch`: a response, or a rejected promise. */
  datatype Http<T> = Response(status: int, body: T) | NetworkError(message: string)
  {
    /** `resp.ok`: a status in the 2xx range. */
    predicate Ok()
    {
      Response? && 200 <= status <= 299
    }
  }

  /** What an adapter call that may find nothing or throw settles to. */
  datatype Outcome<T> = Found(value: T) | Absent | Threw(message: string)

  /** What `upload` settles to: resolved, or rejected with a message. */
  datatype Completion = Done | Failed(message: string)

  /** getRemoteMeta, identical in every adapter: the downloaded payload's meta,
      `null` when there is no payload, and the download's exception otherwise. */
  function RemoteMeta(d: Outcome<SyncPayload>): (m: Outcome<SyncMeta>)
    ensures m.Found? <==> d.Found?
    ensures d.Found? ==> m.value == d.value.meta
    ensures d.Threw? <==> m.Threw?
  {
    match d
    case Found(p) => Found(p.meta)
    case Absent => Absent
    case Threw(e) => Threw(e)
  }
}
