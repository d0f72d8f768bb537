/** The entities of the media service and the outcomes its stores can report. */
module Domain {

  /** Media and user ids. UUIDs enter only through equality and, for media ids, their order. */
  type Id = int
  type User = int

  newtype Byte = b: int | 0 <= b < 256
  type Bytes = seq<Byte>

  /** Instants and durations, in microseconds (the resolution of TIMESTAMPTZ). */
  type Time = int

  const MINUTE: Time := 60_000_000

  /** BlobDeletionLease. */
  const LEASE: Time := 2 * MINUTE

  /** The INTERVAL '256 minutes' in the retry statement. */
  const MAX_BACKOFF: Time := 256 * MINUTE

  const STATUS_AVAILABLE: string := "AVAILABLE"

  datatype Option<+T> = None | Some(value: T)

  /** One row of the media table. */
  datatype Row = Row(
    id: Id,
    user: User,
    filename: string,
    contentType: string,
    size: nat,
    status: string,
    createdAt: Time,
    updatedAt: Time,
    deletedAt: Option<Time>)

  datatype TaskStatus = Pending | Processing | Completed

  /** One row of the media_blob_deletion_tasks table. */
  datatype Task = Task(
    user: User,
    status: TaskStatus,
    attempts: nat,
    nextAt: Time,
    leaseUntil: Option<Time>,
    updatedAt: Time)
  {
    /** A task the queue still has to work on. */
    predicate Open() {
      status != Completed
    }
  }

  /** The limits the service is configured with, and the library's content sniffer. */
  datatype Config = Config(maxUpload: int, maxList: nat, sniff: Bytes -> string)

  datatype UploadInput = UploadInput(user: User, clientId: Option<Id>, filename: string, content: Bytes)

  datatype UploadError = FileTooLarge | UnsupportedType | MediaIdConflict | StoreFailure

  datatype UploadResult =
    | Created(row: Row)
    | Existing(row: Row)
    | Refused(error: UploadError)

  /** What happens to a call of the object store. A lost call reports an error although it
      may have taken effect; a lost Put may even report that the object already exists. */
  datatype PutFate = CleanPut | LostPut(putTook: bool, saysExists: bool)
  datatype DeleteFate = CleanDelete | LostDelete(took: bool)

  datatype PutReport = Stored | AlreadyExists | PutFailed
}
