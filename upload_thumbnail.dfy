/**
 * `handlerUploadThumbnail`: authenticate, read the `thumbnail` part, check ownership, and store the
 * image inline on the video record as a `data:` URI with a base64 payload.
 *
 * The handler has no loops and mutates nothing in place: it is a chain of early returns ending in a
 * fresh record built from the fetched one. `UploadThumbnail` is that chain as a function of what each
 * external step returned and of the store contents.
 */
module ThumbnailUpload {
  import opened Wrappers
  import opened Database
  import opened Http
  import opened Base64

  /** What each external step of one request returned. */
  datatype ThumbnailSteps = ThumbnailSteps(
    videoId: Option<Uuid>,            // uuid.Parse of the `videoID` path value
    token: Option<string>,            // auth.GetBearerToken
    userId: Option<Uuid>,             // auth.ValidateJWT(token, jwtSecret)
    formParsed: bool,                 // r.ParseMultipartForm(maxMemory) succeeded
    contentType: Option<string>,      // r.FormFile("thumbnail") succeeded: the part's Content-Type header, verbatim ("" when absent)
    imageData: Option<seq<byte>>,     // io.ReadAll of the part
    getVideoFails: bool,              // the database reports an error from GetVideo
    updateFails: bool,                // db.UpdateVideo returned an error
    now: Time)                        // time.Now()

  /** The response, the record passed to `UpdateVideo` if it was called, and the store afterwards. */
  datatype ThumbnailOutcome = ThumbnailOutcome(response: Response, update: Option<Video>, videos: map<Uuid, Video>)

  const DataPrefix: string := "data:"
  const Base64Marker: string := ";base64"

  /** The thumbnail reference: `data:<content type>;base64,<standard base64 of the image>`. */
  function DataUri(contentType: string, image: seq<byte>): string
  {
    DataPrefix + contentType + Base64Marker + "," + Encode(image)
  }

  /** The position of the last `c` in `s`, if there is one. */
  function LastIndexOf(s: string, c: char): (r: Option<nat>)
    ensures r.None? <==> c !in s
    ensures r.Some? ==> r.value < |s| && s[r.value] == c && c !in s[r.value + 1..]
    decreases |s|
  {
    if |s| == 0 then None
    else if s[|s| - 1] == c then Some(|s| - 1)
    else
      var r := LastIndexOf(s[..|s| - 1], c);
      assert r.Some? ==> s[r.value + 1..] == s[..|s| - 1][r.value + 1..] + [s[|s| - 1]];
      assert s == s[..|s| - 1] + [s[|s| - 1]];
      r
  }

  /**
   * Reads a `data:` URI back: the content type between `data:` and `;base64`, and the decoded
   * payload after the last comma (a base64 payload never contains one).
   */
  function ParseDataUri(uri: string): (r: Option<(string, seq<byte>)>)
  {
    match LastIndexOf(uri, ',')
    case None => None
    case Some(i) =>
      var header := uri[..i];
      if |header| < |DataPrefix| + |Base64Marker| then None
      else if header[..|DataPrefix|] != DataPrefix || header[|header| - |Base64Marker|..] != Base64Marker then None
      else
        match Decode(uri[i + 1..])
        case None => None
        case Some(image) => Some((header[|DataPrefix|..|header| - |Base64Marker|], image))
  }

  /** The last comma of `head + "," + tail` is the one before `tail` when `tail` has none. */
  lemma LastCommaBefore(head: string, tail: string)
    requires ',' !in tail
    ensures LastIndexOf(head + "," + tail, ',') == Some(|head|)
  {
    var s := head + "," + tail;
    assert s[|head|] == ',';
    assert s[|head| + 1..] == tail;
  }

  /** Reading a thumbnail reference back gives the header's content type and exactly the image bytes. */
  lemma DataUriRoundTrip(contentType: string, image: seq<byte>)
    ensures ParseDataUri(DataUri(contentType, image)) == Some((contentType, image))
  {
    var header := DataPrefix + contentType + Base64Marker;
    var uri := DataUri(contentType, image);
    assert uri == header + "," + Encode(image);
    LastCommaBefore(header, Encode(image));
    assert uri[..|header|] == header;
    assert uri[|header| + 1..] == Encode(image);
    DecodeEncode(image);
    assert header[..|DataPrefix|] == DataPrefix;
    assert header[|header| - |Base64Marker|..] == Base64Marker;
    assert header[|DataPrefix|..|header| - |Base64Marker|] == contentType;
  }

  /** Every URI the reader accepts is the thumbnail reference of what it reads. */
  lemma ParseDataUriExact(uri: string)
    requires ParseDataUri(uri).Some?
    ensures DataUri(ParseDataUri(uri).value.0, ParseDataUri(uri).value.1) == uri
  {
    var i := LastIndexOf(uri, ',').value;
    var header, payload := uri[..i], uri[i + 1..];
    var contentType := header[|DataPrefix|..|header| - |Base64Marker|];
    EncodeDecode(payload);
    SplitThree(header, |DataPrefix|, |Base64Marker|);
    SplitAt(uri, i);
    assert DataUri(contentType, Decode(payload).value) == header + "," + payload;
  }

  lemma SplitAt(s: string, i: nat)
    requires i < |s|
    ensures s == s[..i] + [s[i]] + s[i + 1..]
  {
  }

  lemma SplitThree(s: string, a: nat, b: nat)
    requires a + b <= |s|
    ensures s == s[..a] + s[a..|s| - b] + s[|s| - b..]
  {
  }

  /** The handler's checks, each of which ends the request early when it fails. */
  datatype ThumbnailStep =
    | ParseVideoId | FindToken | ValidateToken | ParseForm | FormFile | ReadImage
    | FetchVideo | CheckOwner | UpdateVideo

  /** The response each check sends when it fails. */
  function ThumbnailFailure(step: ThumbnailStep): Response
  {
    match step
    case ParseVideoId => ErrorResponse(StatusBadRequest, "Invalid ID")
    case FindToken => ErrorResponse(StatusUnauthorized, "Couldn't find JWT")
    case ValidateToken => ErrorResponse(StatusUnauthorized, "Couldn't validate JWT")
    case ParseForm => ErrorResponse(StatusInternalServerError, "Couldn't parse form")
    case FormFile => ErrorResponse(StatusBadRequest, "Couldn't parse form file")
    case ReadImage => ErrorResponse(StatusInternalServerError, "Couldn't decode image data")
    case FetchVideo => ErrorResponse(StatusInternalServerError, "Couldn't get video info")
    case CheckOwner => ErrorResponse(StatusUnauthorized, "Couldn't update video")
    case UpdateVideo => ErrorResponse(StatusInternalServerError, "Couldn't update video")
  }

  function Rejected(response: Response, videos: map<Uuid, Video>): ThumbnailOutcome
  {
    ThumbnailOutcome(response, None, videos)
  }

  /** `handlerUploadThumbnail`'s request checks: the id, the caller's identity and the `thumbnail` part; the failure response if one check fails. */
  function RequestFailure(s: ThumbnailSteps): (r: Option<Response>)
    ensures r.None? ==> s.videoId.Some? && s.userId.Some? && s.contentType.Some? && s.imageData.Some?
  {
    if s.videoId.None? then Some(ThumbnailFailure(ParseVideoId))
    else if s.token.None? then Some(ThumbnailFailure(FindToken))
    else if s.userId.None? then Some(ThumbnailFailure(ValidateToken))
    else if !s.formParsed then Some(ThumbnailFailure(ParseForm))
    else if s.contentType.None? then Some(ThumbnailFailure(FormFile))
    else if s.imageData.None? then Some(ThumbnailFailure(ReadImage))
    else None
  }

  /** The rest of `handlerUploadThumbnail`: fetch the record, check its owner, and store a fresh record carrying the new reference. */
  function ReplaceRecord(s: ThumbnailSteps, videos: map<Uuid, Video>, videoId: Uuid, userId: Uuid, contentType: string, image: seq<byte>): ThumbnailOutcome
  {
    match Lookup(videos, videoId, s.getVideoFails)
    case None => Rejected(ThumbnailFailure(FetchVideo), videos)
    case Some(metadata) =>
      if userId != metadata.params.userId then Rejected(ThumbnailFailure(CheckOwner), videos)
      else
        var tnUrl := DataUri(contentType, image);
        var updated := Video(videoId, metadata.createdAt, s.now, Some(tnUrl), metadata.videoUrl, metadata.params);
        if s.updateFails then ThumbnailOutcome(ThumbnailFailure(UpdateVideo), Some(updated), videos)
        else ThumbnailOutcome(JsonResponse(StatusOK, updated), Some(updated), Stored(videos, updated))
  }

  /** The handler as a function of what its steps returned and of the store contents. */
  function UploadThumbnail(s: ThumbnailSteps, videos: map<Uuid, Video>): ThumbnailOutcome
  {
    match RequestFailure(s)
    case Some(response) => Rejected(response, videos)
    case None => ReplaceRecord(s, videos, s.videoId.value, s.userId.value, s.contentType.value, s.imageData.value)
  }

  /* An independent account of the guard chain: the checks in order, as a list. */

  const RequestOrder: seq<ThumbnailStep> := [ParseVideoId, FindToken, ValidateToken, ParseForm, FormFile, ReadImage]
  const RecordOrder: seq<ThumbnailStep> := [FetchVideo, CheckOwner, UpdateVideo]

  /** The order in which the handler makes its checks. */
  const ThumbnailOrder: seq<ThumbnailStep> := RequestOrder + RecordOrder

  /** The index of the `UpdateVideo` check in `ThumbnailChecks`. */
  const UpdateStep: nat := 8

  function RequestChecks(s: ThumbnailSteps): (c: seq<bool>)
    ensures |c| == |RequestOrder|
  {
    [ s.videoId.Some?, s.token.Some?, s.userId.Some?, s.formParsed, s.contentType.Some?, s.imageData.Some? ]
  }

  function RecordChecks(s: ThumbnailSteps, videos: map<Uuid, Video>): (c: seq<bool>)
    ensures |c| == |RecordOrder|
  {
    var fetched := if s.videoId.Some? then Lookup(videos, s.videoId.value, s.getVideoFails) else None;
    [ fetched.Some?, fetched.Some? && s.userId.Some? ==> fetched.value.params.userId == s.userId.value, !s.updateFails ]
  }

  /** Whether each of the handler's checks passes, in the order of `ThumbnailOrder`. */
  function ThumbnailChecks(s: ThumbnailSteps, videos: map<Uuid, Video>): (c: seq<bool>)
    ensures |c| == |ThumbnailOrder|
  {
    RequestChecks(s) + RecordChecks(s, videos)
  }

  lemma RequestFollowsChecks(s: ThumbnailSteps)
    ensures var k := FirstFailed(RequestChecks(s));
      RequestFailure(s) == if k < |RequestOrder| then Some(ThumbnailFailure(RequestOrder[k])) else None
  {
    var c := RequestChecks(s);
    if s.videoId.None? { FirstFailedIs(c, 0); }
    else if s.token.None? { FirstFailedIs(c, 1); }
    else if s.userId.None? { FirstFailedIs(c, 2); }
    else if !s.formParsed { FirstFailedIs(c, 3); }
    else if s.contentType.None? { FirstFailedIs(c, 4); }
    else if s.imageData.None? { FirstFailedIs(c, 5); }
    else { FirstFailedIs(c, 6); }
  }

  lemma RecordFollowsChecks(s: ThumbnailSteps, videos: map<Uuid, Video>)
    requires RequestFailure(s).None?
    ensures var k := FirstFailed(RecordChecks(s, videos));
      var o := ReplaceRecord(s, videos, s.videoId.value, s.userId.value, s.contentType.value, s.imageData.value);
      (k < |RecordOrder| ==> o.response == ThumbnailFailure(RecordOrder[k]) && o.videos == videos) &&
      (k == |RecordOrder| ==> o.response.JsonResponse? && o.response.status == StatusOK) &&
      (o.update.Some? <==> 2 <= k)
  {
    var c := RecordChecks(s, videos);
    if Lookup(videos, s.videoId.value, s.getVideoFails).None? { FirstFailedIs(c, 0); }
    else if s.userId.value != videos[s.videoId.value].params.userId { FirstFailedIs(c, 1); }
    else if s.updateFails { FirstFailedIs(c, 2); }
    else { FirstFailedIs(c, 3); }
  }

  /**
   * The first failing check, in `ThumbnailOrder`, decides the response; the store is written only
   * when every check passed; `UpdateVideo` is called exactly when every check before it passed.
   */
  lemma ThumbnailFollowsGuards(s: ThumbnailSteps, videos: map<Uuid, Video>)
    ensures var k := FirstFailed(ThumbnailChecks(s, videos));
      var o := UploadThumbnail(s, videos);
      (k < |ThumbnailOrder| ==> o.response == ThumbnailFailure(ThumbnailOrder[k]) && o.videos == videos) &&
      (k == |ThumbnailOrder| ==> o.response.JsonResponse? && o.response.status == StatusOK) &&
      (o.update.Some? <==> UpdateStep <= k)
  {
    FirstFailedAppend(RequestChecks(s), RecordChecks(s, videos));
    RequestFollowsChecks(s);
    if RequestFailure(s).None? {
      RecordFollowsChecks(s, videos);
    }
  }

  /**
   * On success the store holds the returned record, which is the old one with only its thumbnail
   * reference and update time replaced; the reference reads back as the content type and image.
   */
  lemma ThumbnailSuccess(s: ThumbnailSteps, videos: map<Uuid, Video>)
    requires KeyedById(videos)
    requires UploadThumbnail(s, videos).response.JsonResponse?
    ensures s.videoId.Some? && s.videoId.value in videos
    ensures s.contentType.Some? && s.imageData.Some?
    ensures var o := UploadThumbnail(s, videos);
      var id := s.videoId.value;
      var tnUrl := DataUri(s.contentType.value, s.imageData.value);
      var updated := videos[id].(thumbnailUrl := Some(tnUrl), updatedAt := s.now);
      o.response == JsonResponse(StatusOK, updated) &&
      o.update == Some(updated) &&
      o.videos == videos[id := updated] &&
      KeyedById(o.videos) &&
      ParseDataUri(tnUrl) == Some((s.contentType.value, s.imageData.value))
  {
    var id := s.videoId.value;
    var tnUrl := DataUri(s.contentType.value, s.imageData.value);
    var metadata := videos[id];
    var record := Video(id, metadata.createdAt, s.now, Some(tnUrl), metadata.videoUrl, metadata.params);
    assert record == metadata.(thumbnailUrl := Some(tnUrl), updatedAt := s.now) by {
      assert metadata.id == id;
    }
    assert UploadThumbnail(s, videos) == ThumbnailOutcome(JsonResponse(StatusOK, record), Some(record), Stored(videos, record));
    StoredKeepsKeys(videos, record);
    DataUriRoundTrip(s.contentType.value, s.imageData.value);
  }

  /** A caller who does not own the video never reaches `UpdateVideo` and is refused; past the request checks, with 401. */
  lemma NonOwnerRefused(s: ThumbnailSteps, videos: map<Uuid, Video>)
    requires s.videoId.Some? && s.userId.Some? && s.videoId.value in videos
    requires videos[s.videoId.value].params.userId != s.userId.value
    ensures var o := UploadThumbnail(s, videos);
      o.update.None? && o.videos == videos && o.response.ErrorResponse? && o.response.status != StatusOK
    ensures s.token.Some? && s.formParsed && s.contentType.Some? && s.imageData.Some? && !s.getVideoFails ==>
      UploadThumbnail(s, videos).response == ErrorResponse(StatusUnauthorized, "Couldn't update video")
  {
  }

  /** No content type is refused: the response status and the store's keys do not depend on it. */
  lemma ContentTypeNotChecked(s: ThumbnailSteps, videos: map<Uuid, Video>, other: string)
    requires s.contentType.Some?
    ensures var o1, o2 := UploadThumbnail(s, videos), UploadThumbnail(s.(contentType := Some(other)), videos);
      StatusOf(o1.response) == StatusOf(o2.response) && o1.videos.Keys == o2.videos.Keys &&
      (o1.response.JsonResponse? ==> o2.response.video.thumbnailUrl == Some(DataUri(other, s.imageData.value)))
  {
  }

  /** A failed request leaves the store as it was. */
  lemma ThumbnailFailureLeavesStore(s: ThumbnailSteps, videos: map<Uuid, Video>)
    requires !UploadThumbnail(s, videos).response.JsonResponse?
    ensures UploadThumbnail(s, videos).videos == videos
  {
  }
}
