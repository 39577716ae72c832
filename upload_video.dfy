/**
 * `handlerUploadVideo`: authenticate, check ownership, accept an mp4 part, stage it, probe its
 * orientation, put it in S3 under `<orientation>/<asset path>` and record the object's URL on the video.
 *
 * Each external step (uuid parsing, bearer-token extraction, JWT validation, the multipart part,
 * MIME parsing, temp-file staging, ffprobe, `PutObject`, `UpdateVideo`) is an input saying what it
 * returned. `UploadVideo` is the handler as a function of those inputs and the store contents;
 * `ApiConfig.HandlerUploadVideo` is the handler as the source writes it, step by step against the
 * store object, and is proved to agree with it.
 */
module VideoUpload {
  import opened Wrappers
  import opened Database
  import opened Http
  import opened AspectRatio

  /** What each external step of one request returned. */
  datatype VideoSteps = VideoSteps(
    videoId: Option<Uuid>,      // uuid.Parse of the `videoID` path value
    token: Option<string>,      // auth.GetBearerToken
    userId: Option<Uuid>,       // auth.ValidateJWT(token, jwtSecret)
    getVideoFails: bool,        // the database reports an error from GetVideo
    formFile: bool,             // r.FormFile("video") succeeded
    mediaType: Option<string>,  // mime.ParseMediaType of the part's Content-Type header, parameters dropped
    assetPath: string,          // getAssetPath(mediaType)
    tempCreated: bool,          // os.CreateTemp succeeded
    copied: bool,               // io.Copy into the temp file succeeded
    probe: ProbeOutput,         // ffprobe and the decoding of its output
    putFails: bool,             // s3Client.PutObject returned an error
    updateFails: bool)          // db.UpdateVideo returned an error

  /** The `PutObject` request: bucket, key and content type (the body is the staged file). */
  datatype PutObjectInput = PutObjectInput(bucket: string, key: string, contentType: string)

  /** The response, the `PutObject` request and the record passed to `UpdateVideo` if they were made, and the store afterwards. */
  datatype VideoOutcome = VideoOutcome(response: Response, put: Option<PutObjectInput>, update: Option<Video>, videos: map<Uuid, Video>)

  const Mp4: string := "video/mp4"

  /** The indices of the `PutObject` and `UpdateVideo` checks in `VideoChecks`. */
  const PutObjectStep: nat := 12
  const UpdateVideoStep: nat := 13

  /** The S3 key: the orientation as a directory in front of the asset path. */
  function ObjectKey(orientation: string, assetPath: string): string
  {
    orientation + "/" + assetPath
  }

  /** The virtual-hosted-style URL of an object. */
  function ObjectUrl(bucket: string, region: string, key: string): string
  {
    "https://" + bucket + ".s3." + region + ".amazonaws.com/" + key
  }

  /** The text before the first `/`, or all of it when there is none. */
  function FirstSegment(path: string): (r: string)
    ensures |r| <= |path| && r == path[..|r|]
    ensures '/' !in r
    decreases |path|
  {
    if |path| == 0 || path[0] == '/' then "" else [path[0]] + FirstSegment(path[1..])
  }

  lemma {:induction false} FirstSegmentOfJoin(head: string, rest: string)
    requires '/' !in head
    ensures FirstSegment(head + "/" + rest) == head
    decreases |head|
  {
    if |head| > 0 {
      assert (head + "/" + rest)[1..] == head[1..] + "/" + rest;
      FirstSegmentOfJoin(head[1..], rest);
    }
  }

  /** The orientation is the first path segment after the host in the object's URL. */
  lemma OrientationLeadsUrlPath(bucket: string, region: string, w: int, h: int, assetPath: string)
    ensures var host := "https://" + bucket + ".s3." + region + ".amazonaws.com/";
      var url := ObjectUrl(bucket, region, ObjectKey(Classify(w, h), assetPath));
      |host| <= |url| && url[..|host|] == host &&
      FirstSegment(url[|host|..]) == Classify(w, h)
  {
    var host := "https://" + bucket + ".s3." + region + ".amazonaws.com/";
    var o := Classify(w, h);
    var key := ObjectKey(o, assetPath);
    var url := ObjectUrl(bucket, region, key);
    assert url == host + key;
    assert url[..|host|] == host && url[|host|..] == key;
    assert '/' !in o;
    FirstSegmentOfJoin(o, assetPath);
  }

  function Rejected(response: Response, videos: map<Uuid, Video>): VideoOutcome
  {
    VideoOutcome(response, None, None, videos)
  }

  /** The handler's checks, each of which ends the request early when it fails. */
  datatype VideoStep =
    | ParseVideoId | FindToken | ValidateToken | FetchVideo | CheckOwner
    | FormFile | ParseMediaType | CheckMp4 | CreateTemp | CopyToTemp
    | ProbeAspect | IndexFirstStream | PutObject | UpdateVideo

  /** The response each check sends when it fails. */
  function VideoFailure(step: VideoStep): Response
  {
    match step
    case ParseVideoId => ErrorResponse(StatusBadRequest, "Invalid ID")
    case FindToken => ErrorResponse(StatusUnauthorized, "Couldn't find JWT")
    case ValidateToken => ErrorResponse(StatusUnauthorized, "Couldn't validate JWT")
    case FetchVideo => ErrorResponse(StatusInternalServerError, "Couldn't find video")
    case CheckOwner => ErrorResponse(StatusUnauthorized, "Can't update video as current user")
    case FormFile => ErrorResponse(StatusBadRequest, "Unable to parse form file")
    case ParseMediaType => ErrorResponse(StatusBadRequest, "Invalid Content-Type")
    case CheckMp4 => ErrorResponse(StatusBadRequest, "Invalid file type")
    case CreateTemp => ErrorResponse(StatusInternalServerError, "Couldn't create temp file")
    case CopyToTemp => ErrorResponse(StatusInternalServerError, "Couldn't upload file")
    case ProbeAspect => ErrorResponse(StatusInternalServerError, "Couldn't get aspect ratio")
    case IndexFirstStream => Aborted
    case PutObject => ErrorResponse(StatusInternalServerError, "Couldn't upload file to S3")
    case UpdateVideo => ErrorResponse(StatusInternalServerError, "Couldn't update video in database")
  }

  /** What `GetVideo` returns, once the id has parsed. */
  function Fetched(s: VideoSteps, videos: map<Uuid, Video>): Option<Video>
  {
    if s.videoId.Some? then Lookup(videos, s.videoId.value, s.getVideoFails) else None
  }

  /** `handlerUploadVideo`'s first checks: the id, the caller's identity, the record and its owner; the failure response if one check fails. */
  function AuthorizeFailure(s: VideoSteps, videos: map<Uuid, Video>): (r: Option<Response>)
    ensures r.None? ==> s.userId.Some? && Fetched(s, videos).Some?
    ensures r.None? ==> Fetched(s, videos).value.params.userId == s.userId.value
  {
    if s.videoId.None? then Some(VideoFailure(ParseVideoId))
    else if s.token.None? then Some(VideoFailure(FindToken))
    else if s.userId.None? then Some(VideoFailure(ValidateToken))
    else if Fetched(s, videos).None? then Some(VideoFailure(FetchVideo))
    else if Fetched(s, videos).value.params.userId != s.userId.value then Some(VideoFailure(CheckOwner))
    else None
  }

  /** `handlerUploadVideo`'s staging checks: the `video` part, its media type, and staging it to a temporary file. */
  function StagingFailure(s: VideoSteps): (r: Option<Response>)
    ensures r.None? ==> s.mediaType == Some(Mp4)
  {
    if !s.formFile then Some(VideoFailure(FormFile))
    else if s.mediaType.None? then Some(VideoFailure(ParseMediaType))
    else if s.mediaType.value != Mp4 then Some(VideoFailure(CheckMp4))
    else if !s.tempCreated then Some(VideoFailure(CreateTemp))
    else if !s.copied then Some(VideoFailure(CopyToTemp))
    else None
  }

  /** The rest of `handlerUploadVideo`: probe the orientation, put the object, and record its URL on the fetched record. */
  function Publish(bucket: string, region: string, s: VideoSteps, videos: map<Uuid, Video>, video: Video, mediaType: string): VideoOutcome
  {
    match VideoAspectRatio(s.probe)
    case ProbeError => Rejected(VideoFailure(ProbeAspect), videos)
    case NoStreams => Rejected(VideoFailure(IndexFirstStream), videos)
    case Orientation(orientation) =>
      var key := ObjectKey(orientation, s.assetPath);
      var put := Some(PutObjectInput(bucket, key, mediaType));
      var updated := video.(videoUrl := Some(ObjectUrl(bucket, region, key)));
      if s.putFails then VideoOutcome(VideoFailure(PutObject), put, None, videos)
      else if s.updateFails then VideoOutcome(VideoFailure(UpdateVideo), put, Some(updated), videos)
      else VideoOutcome(EmptyResponse, put, Some(updated), Stored(videos, updated))
  }

  /** The handler as a function of what its steps returned and of the store contents. */
  function UploadVideo(bucket: string, region: string, s: VideoSteps, videos: map<Uuid, Video>): VideoOutcome
  {
    match AuthorizeFailure(s, videos)
    case Some(response) => Rejected(response, videos)
    case None =>
      match StagingFailure(s)
      case Some(response) => Rejected(response, videos)
      case None => Publish(bucket, region, s, videos, Fetched(s, videos).value, s.mediaType.value)
  }

  /* An independent account of the guard chain: the checks in order, as a list. */

  const AuthorizeOrder: seq<VideoStep> := [ParseVideoId, FindToken, ValidateToken, FetchVideo, CheckOwner]
  const StagingOrder: seq<VideoStep> := [FormFile, ParseMediaType, CheckMp4, CreateTemp, CopyToTemp]
  const PublishOrder: seq<VideoStep> := [ProbeAspect, IndexFirstStream, PutObject, UpdateVideo]

  /** The order in which the handler makes its checks. */
  const VideoOrder: seq<VideoStep> := AuthorizeOrder + StagingOrder + PublishOrder

  function AuthorizeChecks(s: VideoSteps, videos: map<Uuid, Video>): (c: seq<bool>)
    ensures |c| == |AuthorizeOrder|
  {
    var fetched := Fetched(s, videos);
    [ s.videoId.Some?, s.token.Some?, s.userId.Some?, fetched.Some?,
      fetched.Some? && s.userId.Some? ==> fetched.value.params.userId == s.userId.value ]
  }

  function StagingChecks(s: VideoSteps): (c: seq<bool>)
    ensures |c| == |StagingOrder|
  {
    [ s.formFile, s.mediaType.Some?, s.mediaType == Some(Mp4), s.tempCreated, s.copied ]
  }

  function PublishChecks(s: VideoSteps): (c: seq<bool>)
    ensures |c| == |PublishOrder|
  {
    var probe := VideoAspectRatio(s.probe);
    [ !probe.ProbeError?, !probe.NoStreams?, !s.putFails, !s.updateFails ]
  }

  /** Whether each of the handler's checks passes, in the order of `VideoOrder`. */
  function VideoChecks(s: VideoSteps, videos: map<Uuid, Video>): (c: seq<bool>)
    ensures |c| == |VideoOrder|
  {
    AuthorizeChecks(s, videos) + StagingChecks(s) + PublishChecks(s)
  }

  /** The response of the first failing check, as a function of its index. */
  function FailureAt(order: seq<VideoStep>, k: nat): Option<Response>
  {
    if k < |order| then Some(VideoFailure(order[k])) else None
  }

  lemma AuthorizeFollowsChecks(s: VideoSteps, videos: map<Uuid, Video>)
    ensures AuthorizeFailure(s, videos) == FailureAt(AuthorizeOrder, FirstFailed(AuthorizeChecks(s, videos)))
  {
    var c := AuthorizeChecks(s, videos);
    if s.videoId.None? { FirstFailedIs(c, 0); }
    else if s.token.None? { FirstFailedIs(c, 1); }
    else if s.userId.None? { FirstFailedIs(c, 2); }
    else if Fetched(s, videos).None? { FirstFailedIs(c, 3); }
    else if Fetched(s, videos).value.params.userId != s.userId.value { FirstFailedIs(c, 4); }
    else { FirstFailedIs(c, 5); }
  }

  lemma StagingFollowsChecks(s: VideoSteps)
    ensures StagingFailure(s) == FailureAt(StagingOrder, FirstFailed(StagingChecks(s)))
  {
    var c := StagingChecks(s);
    if !s.formFile { FirstFailedIs(c, 0); }
    else if s.mediaType.None? { FirstFailedIs(c, 1); }
    else if s.mediaType.value != Mp4 { FirstFailedIs(c, 2); }
    else if !s.tempCreated { FirstFailedIs(c, 3); }
    else if !s.copied { FirstFailedIs(c, 4); }
    else { FirstFailedIs(c, 5); }
  }

  lemma PublishFollowsChecks(bucket: string, region: string, s: VideoSteps, videos: map<Uuid, Video>, video: Video, mediaType: string)
    ensures var k := FirstFailed(PublishChecks(s));
      var o := Publish(bucket, region, s, videos, video, mediaType);
      (k < |PublishOrder| ==> o.response == VideoFailure(PublishOrder[k]) && o.videos == videos) &&
      (k == |PublishOrder| ==> o.response == EmptyResponse) &&
      (o.put.Some? <==> 2 <= k) && (o.update.Some? <==> 3 <= k)
  {
    var c := PublishChecks(s);
    var probe := VideoAspectRatio(s.probe);
    if probe.ProbeError? { FirstFailedIs(c, 0); }
    else if probe.NoStreams? { FirstFailedIs(c, 1); }
    else if s.putFails { FirstFailedIs(c, 2); }
    else if s.updateFails { FirstFailedIs(c, 3); }
    else { FirstFailedIs(c, 4); }
  }

  /**
   * The first failing check, in `VideoOrder`, decides the response; the store is written only when
   * every check passed; `PutObject` and `UpdateVideo` are each called exactly when every check
   * before them passed, so `UpdateVideo` only after `PutObject` succeeded.
   */
  lemma VideoFollowsGuards(bucket: string, region: string, s: VideoSteps, videos: map<Uuid, Video>)
    ensures var k := FirstFailed(VideoChecks(s, videos));
      var o := UploadVideo(bucket, region, s, videos);
      (k < |VideoOrder| ==> o.response == VideoFailure(VideoOrder[k]) && o.videos == videos) &&
      (k == |VideoOrder| ==> o.response == EmptyResponse) &&
      (o.put.Some? <==> PutObjectStep <= k) &&
      (o.update.Some? <==> UpdateVideoStep <= k)
  {
    var a, st, p := AuthorizeChecks(s, videos), StagingChecks(s), PublishChecks(s);
    FirstFailedAppend(a, st);
    FirstFailedAppend(a + st, p);
    AuthorizeFollowsChecks(s, videos);
    if AuthorizeFailure(s, videos).None? {
      StagingFollowsChecks(s);
      if StagingFailure(s).None? {
        PublishFollowsChecks(bucket, region, s, videos, Fetched(s, videos).value, s.mediaType.value);
      }
    }
  }

  /**
   * A successful upload changes exactly one thing: the requested video's `videoUrl`, which becomes
   * the URL of the object put under `<orientation of the first stream>/<asset path>`.
   */
  lemma VideoSuccessSetsOnlyUrl(bucket: string, region: string, s: VideoSteps, videos: map<Uuid, Video>)
    requires KeyedById(videos)
    requires UploadVideo(bucket, region, s, videos).response == EmptyResponse
    ensures s.videoId.Some? && s.videoId.value in videos
    ensures s.mediaType == Some(Mp4) && s.probe.Decoded? && |s.probe.streams| > 0
    ensures var o := UploadVideo(bucket, region, s, videos);
      var id := s.videoId.value;
      var key := ObjectKey(Classify(s.probe.streams[0].width, s.probe.streams[0].height), s.assetPath);
      var updated := videos[id].(videoUrl := Some(ObjectUrl(bucket, region, key)));
      o.put == Some(PutObjectInput(bucket, key, Mp4)) &&
      o.update == Some(updated) &&
      o.videos == videos[id := updated] &&
      KeyedById(o.videos)
  {
    assert AuthorizeFailure(s, videos).None? && StagingFailure(s).None?;
    var video := Fetched(s, videos).value;
    PublishSuccess(bucket, region, s, videos, video, Mp4);
    assert video.id == s.videoId.value;
  }

  /** When publishing succeeds, the one record stored is the given one with its `videoUrl` set. */
  lemma PublishSuccess(bucket: string, region: string, s: VideoSteps, videos: map<Uuid, Video>, video: Video, mediaType: string)
    requires KeyedById(videos) && video.id in videos && videos[video.id] == video
    requires Publish(bucket, region, s, videos, video, mediaType).response == EmptyResponse
    ensures s.probe.Decoded? && |s.probe.streams| > 0
    ensures var o := Publish(bucket, region, s, videos, video, mediaType);
      var key := ObjectKey(Classify(s.probe.streams[0].width, s.probe.streams[0].height), s.assetPath);
      var updated := video.(videoUrl := Some(ObjectUrl(bucket, region, key)));
      o.put == Some(PutObjectInput(bucket, key, mediaType)) &&
      o.update == Some(updated) &&
      o.videos == videos[video.id := updated] &&
      KeyedById(o.videos)
  {
    var key := ObjectKey(Classify(s.probe.streams[0].width, s.probe.streams[0].height), s.assetPath);
    StoredKeepsKeys(videos, video.(videoUrl := Some(ObjectUrl(bucket, region, key))));
  }

  /** A failed or aborted upload leaves the store as it was. */
  lemma VideoFailureLeavesStore(bucket: string, region: string, s: VideoSteps, videos: map<Uuid, Video>)
    requires UploadVideo(bucket, region, s, videos).response != EmptyResponse
    ensures UploadVideo(bucket, region, s, videos).videos == videos
  {
  }

  /** Only `video/mp4` gets past the media-type checks: any other type, or a parse failure, is a 400 with no S3 request. */
  lemma OnlyMp4ReachesStaging(bucket: string, region: string, s: VideoSteps, videos: map<Uuid, Video>)
    requires s.mediaType != Some(Mp4)
    ensures var o := UploadVideo(bucket, region, s, videos);
      o.put.None? && o.update.None? && o.videos == videos && StatusOf(o.response) != Some(StatusOK)
    ensures AuthorizeFailure(s, videos).None? && s.formFile ==>
      UploadVideo(bucket, region, s, videos).response == VideoFailure(if s.mediaType.None? then ParseMediaType else CheckMp4) &&
      StatusOf(UploadVideo(bucket, region, s, videos).response) == Some(StatusBadRequest)
  {
  }

  /** The API configuration the handler runs in: the S3 bucket and region and the metadata store. */
  class ApiConfig {
    const s3Bucket: string
    const s3Region: string
    const db: MetadataStore

    constructor (bucket: string, region: string, store: MetadataStore)
      ensures s3Bucket == bucket && s3Region == region && db == store
    {
      s3Bucket := bucket;
      s3Region := region;
      db := store;
    }

    /** `handlerUploadVideo`, returning the response and the `PutObject` and `UpdateVideo` requests it made. */
    method HandlerUploadVideo(s: VideoSteps) returns (response: Response, put: Option<PutObjectInput>, update: Option<Video>)
      requires db.Valid()
      modifies db
      ensures db.Valid()
      ensures VideoOutcome(response, put, update, db.videos) == UploadVideo(s3Bucket, s3Region, s, old(db.videos))
    {
      put, update := None, None;
      if s.videoId.None? {
        response := VideoFailure(ParseVideoId);
        return;
      }
      var videoId := s.videoId.value;
      if s.token.None? {
        response := VideoFailure(FindToken);
        return;
      }
      if s.userId.None? {
        response := VideoFailure(ValidateToken);
        return;
      }
      var userId := s.userId.value;
      var fetched := db.GetVideo(videoId, s.getVideoFails);
      if fetched.None? {
        response := VideoFailure(FetchVideo);
        return;
      }
      var video := fetched.value;
      if video.params.userId != userId {
        response := VideoFailure(CheckOwner);
        return;
      }
      if !s.formFile {
        response := VideoFailure(FormFile);
        return;
      }
      if s.mediaType.None? {
        response := VideoFailure(ParseMediaType);
        return;
      }
      var mediaType := s.mediaType.value;
      if mediaType != Mp4 {
        response := VideoFailure(CheckMp4);
        return;
      }
      var filePath := s.assetPath;
      if !s.tempCreated {
        response := VideoFailure(CreateTemp);
        return;
      }
      if !s.copied {
        response := VideoFailure(CopyToTemp);
        return;
      }
      var aspectRatio := VideoAspectRatio(s.probe);
      if aspectRatio.ProbeError? {
        response := VideoFailure(ProbeAspect);
        return;
      }
      if aspectRatio.NoStreams? {
        response := VideoFailure(IndexFirstStream);
        return;
      }
      filePath := aspectRatio.name + "/" + filePath;
      put := Some(PutObjectInput(s3Bucket, filePath, mediaType));
      if s.putFails {
        response := VideoFailure(PutObject);
        return;
      }
      var videoUrl := "https://" + s3Bucket + ".s3." + s3Region + ".amazonaws.com/" + filePath;
      video := video.(videoUrl := Some(videoUrl));
      update := Some(video);
      var ok := db.UpdateVideo(video, s.updateFails);
      if !ok {
        response := VideoFailure(UpdateVideo);
      } else {
        response := EmptyResponse;
      }
    }
  }
}
