/** The domain model shared by the server and the worker: the avatar record, its statuses, the
    events, and the deployment's fixed choices. */
module Avatars {
  import opened Wrappers
  import opened KeyLayout

  newtype byte = x: int | 0 <= x < 256
  type Data = seq<byte>
  type Id = string
  type User = string

  datatype UploadStatus = Uploading | Uploaded | UploadFailed

  datatype ProcessingStatus = Pending | Processing | Completed | ProcessingFailed | Deleted

  /** One row of the avatars table. `deletedAt` is None while the row is live. */
  datatype Avatar = Avatar(
    id: Id,
    userID: User,
    fileName: string,
    mimeType: string,
    sizeBytes: nat,
    width: int,
    height: int,
    s3Key: Key,
    thumbnails: map<string, Key>,
    uploadStatus: UploadStatus,
    processingStatus: ProcessingStatus,
    createdAt: nat,
    updatedAt: nat,
    deletedAt: Option<nat>)

  /** The data needed to insert a record. */
  datatype New = New(
    id: Id,
    userID: User,
    fileName: string,
    mimeType: string,
    sizeBytes: nat,
    width: int,
    height: int,
    s3Key: Key)

  datatype UploadEvent = UploadEvent(avatarID: Id, userID: User, s3Key: Key)

  datatype DeleteEvent = DeleteEvent(avatarID: Id, s3Keys: seq<Key>)

  /** What content sniffing tells about a file. */
  datatype Sniff = Sniff(mimeType: string, width: int, height: int)

  /** What a deployment fixes: the thumbnail sizes, the retry schedule, and the image library,
      of which only determinism is used. `generate` is None when the file does not decode. */
  datatype Config = Config(
    sizes: seq<int>,
    backoff: seq<nat>,
    generate: (Data, int) -> Option<Data>,
    sniff: Data -> Sniff)

  /** The thumbnail column after thumbnails of the given sizes were stored, in that order. */
  function ThumbnailMap(id: Id, sizes: seq<int>): map<string, Key> {
    if sizes == [] then map[]
    else
      var px := sizes[|sizes| - 1];
      ThumbnailMap(id, sizes[..|sizes| - 1])[SizeName(px) := Thumbnail(id, px)]
  }

  /** Each size has its own entry, whatever the order and the repetitions: labels do not clash. */
  lemma {:induction false} ThumbnailMapEntries(id: Id, sizes: seq<int>)
    ensures forall px | px in sizes ::
              SizeName(px) in ThumbnailMap(id, sizes) &&
              ThumbnailMap(id, sizes)[SizeName(px)] == Thumbnail(id, px)
    ensures forall name | name in ThumbnailMap(id, sizes) ::
              exists px :: px in sizes && name == SizeName(px)
  {
    if sizes != [] {
      var last, before := sizes[|sizes| - 1], sizes[..|sizes| - 1];
      ThumbnailMapEntries(id, before);
      forall px | px in sizes
        ensures SizeName(px) in ThumbnailMap(id, sizes)
        ensures ThumbnailMap(id, sizes)[SizeName(px)] == Thumbnail(id, px)
      {
        if SizeName(px) == SizeName(last) {
          SizeNameInjective(px, last);
        } else {
          assert px in before;
        }
      }
    }
  }

  lemma ThumbnailMapStep(id: Id, sizes: seq<int>, i: nat)
    requires i < |sizes|
    ensures ThumbnailMap(id, sizes[..i + 1]) ==
            ThumbnailMap(id, sizes[..i])[SizeName(sizes[i]) := Thumbnail(id, sizes[i])]
  {
    assert sizes[..i + 1][..i] == sizes[..i];
  }
}
