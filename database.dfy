/**
 * The video metadata record and the metadata store the handlers read and write
 * (`cfg.db.GetVideo`, `cfg.db.UpdateVideo`).
 */
module Database {
  import opened Wrappers

  /** A `uuid.UUID`, treated as an opaque identity. */
  type Uuid = nat

  /** A `time.Time`, treated as an opaque instant. */
  type Time = int

  /** The parameters a video was created with; handlers only read `userId`, the owner. */
  datatype CreateVideoParams = CreateVideoParams(title: string, description: string, userId: Uuid)

  /** `database.Video`; the two optional URLs are the source's `*string` fields (nil is `None`). */
  datatype Video = Video(
    id: Uuid,
    createdAt: Time,
    updatedAt: Time,
    thumbnailUrl: Option<string>,
    videoUrl: Option<string>,
    params: CreateVideoParams)

  /** Every stored record is stored under its own id. */
  predicate KeyedById(videos: map<Uuid, Video>)
  {
    forall id :: id in videos ==> videos[id].id == id
  }

  /** What `GetVideo(id)` returns: the stored record, or an error when none is stored or the store fails. */
  function Lookup(videos: map<Uuid, Video>, id: Uuid, fails: bool): Option<Video>
  {
    if !fails && id in videos then Some(videos[id]) else None
  }

  /** The store after a successful `UpdateVideo(v)`: the record under `v.id` is `v`. */
  function Stored(videos: map<Uuid, Video>, v: Video): (r: map<Uuid, Video>)
    ensures v.id in r && r[v.id] == v
    ensures r.Keys == videos.Keys + {v.id}
    ensures forall id :: id in videos && id != v.id ==> id in r && r[id] == videos[id]
  {
    videos[v.id := v]
  }

  /** Writing a record under its own id keeps the store keyed by id. */
  lemma StoredKeepsKeys(videos: map<Uuid, Video>, v: Video)
    requires KeyedById(videos)
    ensures KeyedById(Stored(videos, v))
  {
  }

  class MetadataStore {
    var videos: map<Uuid, Video>

    /** The store's invariant: every record is stored under its own id. */
    predicate Valid()
      reads this
    {
      KeyedById(videos)
    }

    constructor (initial: map<Uuid, Video>)
      requires KeyedById(initial)
      ensures Valid() && videos == initial
    {
      videos := initial;
    }

    /** `fails` stands for an error of the underlying database. */
    method GetVideo(id: Uuid, fails: bool) returns (r: Option<Video>)
      ensures r == Lookup(videos, id, fails)
    {
      if !fails && id in videos {
        r := Some(videos[id]);
      } else {
        r := None;
      }
    }

    /** `fails` stands for an error of the underlying database; on error nothing is written. */
    method UpdateVideo(v: Video, fails: bool) returns (ok: bool)
      requires Valid()
      modifies this
      ensures Valid()
      ensures ok == !fails
      ensures videos == if ok then Stored(old(videos), v) else old(videos)
    {
      ok := !fails;
      if ok {
        StoredKeepsKeys(videos, v);
        videos := videos[v.id := v];
      }
    }
  }
}
