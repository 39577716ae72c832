# Video and thumbnail upload handlers, modelled in Dafny

This project models the two upload handlers of a small video-hosting API written in Go.

- `handlerUploadVideo` authenticates the caller and checks that they own the video. It accepts an
  `mp4` part and stages it in a temporary file. It probes the video's orientation with `ffprobe`,
  puts the file in S3 under `<orientation>/<asset path>`, and records the object's URL on the
  video's metadata record.
- `handlerUploadThumbnail` authenticates the caller and reads the `thumbnail` part. It checks
  ownership and replaces the record with a fresh one. The fresh record carries the image inline, as
  a `data:<content type>;base64,<payload>` URI.

Every external step is an input that says what the step returned:

- uuid parsing, bearer-token extraction and JWT validation;
- multipart parsing, the form part and MIME parsing;
- temp-file staging, ffprobe, `PutObject` and `UpdateVideo`;
- the clock.

Each handler is a function of those inputs and of the metadata store's contents. Its result is the
HTTP response, the store afterwards, and the requests made to S3 and to the store.

The modules:

- `Wrappers`: `Option`, standing for Go's `(T, error)` results and nil `*string` fields.
- `Base64`: standard padded base64 (section 4 of RFC 4648, Go's `base64.StdEncoding`).
  - The encoder is recursive over 3-byte groups.
  - A strict decoder is its exact inverse. The round trip is proved in both directions.
- `AspectRatio`: `getVideoAspectRatio` after ffprobe has run.
  - The 16:9 / 9:16 tolerance test is written over integers, in exact arithmetic.
  - A lemma proves it equal to the test on the exact real quotient.
- `Database`: the video record, and the metadata store as a class holding a `map` from id to record.
  - `UpdateVideo` overwrites the record under its id.
  - `GetVideo` fails on an injected database error or, by assumption, a missing id.
  - The store's invariant `Valid()` is that every record is stored under its own id.
- `Http`: the responses the handlers can produce, the status codes, and the index of the first
  failing check in a list of checks.
- `VideoUpload`:
  - `UploadVideo` is the video handler as a function.
  - `ApiConfig.HandlerUploadVideo` is the handler as the source writes it. It is a method on the API
    configuration that reassigns the file path, updates the fetched record in place and writes it
    back through the store object. It is proved to agree with `UploadVideo`.
- `ThumbnailUpload`: the thumbnail handler as a function. The source has no loops and no in-place
  mutation. It also holds a reader for the `data:` URI it builds.

Each handler's guard chain is stated twice:

- as the handler itself, an if-chain of early returns;
- as an independent list of checks in source order, with a table from each check to its response.

The guard lemmas prove that the two agree:

- the first failing check decides the response;
- the store changes only when every check passed;
- each external write is attempted exactly when every check before it passed.

Behaviour worth noting, as the code has it:

- A caller who does not own the video gets 401 in both handlers, not 403.
- A `GetVideo` error is 500 ("Couldn't find video" / "Couldn't get video
  info"), not 404.
- The thumbnail's content type is taken verbatim from the part's `Content-Type` header. It is not
  checked against any allow-list.
- The video handler's record update sets only `VideoURL`. `UpdatedAt` keeps its old value.
- A successful video upload writes no response body; the server answers 200 with an empty body.
  The model's response is `EmptyResponse`.
- ffprobe can report an empty `streams` array. The source then indexes it at
  `handler_upload_video.go:121` and panics. The model gives this an explicit outcome, `NoStreams`,
  which the handler turns into `Aborted`: the connection is dropped, no status is sent and nothing is
  written.

## Model

| member | source | states |
|---|---|---|
| `AspectRatio.Classify` | handler_upload_video.go:124-136 | The result is exactly one of `landscape`, `portrait`, `other`. It is `landscape` iff the dimensions lie in the 16:9 tolerance band, and `portrait` iff they lie in the 9:16 band. A zero height lies in neither band. |
| `AspectRatio.BandsDisjoint` | handler_upload_video.go:124-133 | No width and height lie in both the 16:9 band and the 9:16 band. |
| `AspectRatio.TestOrderIrrelevant` | handler_upload_video.go:130-136 | Testing 9:16 before 16:9 gives the same classification for every input. |
| `AspectRatio.LandscapeIsRatioBand` | handler_upload_video.go:125-131 | The integer landscape test holds iff the height is non-zero and the exact width/height is within 0.01 of 16/9. |
| `AspectRatio.PortraitIsRatioBand` | handler_upload_video.go:126-133 | The integer portrait test holds iff the height is non-zero and the exact width/height is within 0.01 of 9/16. |
| `AspectRatio.ClassifyByRatio` | handler_upload_video.go:124-136 | `landscape` iff within 0.01 of 16/9; `portrait` iff within 0.01 of 9/16; `other` iff within neither. All three are stated on the exact quotient. |
| `AspectRatio.VideoAspectRatio` | handler_upload_video.go:105-137 | An orientation is returned iff ffprobe ran, its output decoded, and the stream list is non-empty. The orientation is the classification of the first stream. An empty list, and only an empty list, gives `NoStreams`. A command or unmarshal failure gives an error. |
| `AspectRatio.LaterStreamsIgnored` | handler_upload_video.go:121-122 | Appending streams after the first never changes the result. |
| `AspectRatio.Examples` | handler_upload_video.go:129-136 | 1920x1080 is landscape, 1080x1920 is portrait, and 1000x1000 is other. Height 0 is other. |
| `Base64.Encode` | handler_upload_thumbnail.go:66 | The encoding of n bytes has length 4·⌈n/3⌉. Every character is in the standard alphabet or is `=`. `=` appears only in the last two positions. |
| `Base64.StandardVectors` | handler_upload_thumbnail.go:66 | The encoder gives the test vectors of section 10 of RFC 4648: "" → "", "f" → "Zg==", "fo" → "Zm8=", "foo" → "Zm9v", "foob" → "Zm9vYg==", "fooba" → "Zm9vYmE=", "foobar" → "Zm9vYmFy". |
| `Base64.DecodeEncode` | handler_upload_thumbnail.go:66 | Decoding the encoding of any byte sequence gives back exactly that sequence. |
| `Base64.EncodeDecode` | handler_upload_thumbnail.go:66 | Every string the strict decoder accepts is the encoding of the bytes it decodes to. So the encoding is injective, and its image is exactly the accepted strings. |
| `Database.Stored` | handler_upload_video.go:100 | After an update, the updated id maps to the new record. The set of ids grows by that id alone. Every other id keeps its record. |
| `Database.StoredKeepsKeys` | handler_upload_thumbnail.go:78 | Writing a record under its own id keeps every record stored under its own id. |
| `Database.MetadataStore.GetVideo` | handler_upload_video.go:43 | The store method returns the record stored under the id when the database reports no error and the id is present, and an error otherwise; it changes nothing. |
| `Database.MetadataStore.UpdateVideo` | handler_upload_video.go:100-102 | On success the contents become `Stored(old contents, record)`. On a database error the contents are unchanged and an error is reported. The store's invariant is kept. |
| `VideoUpload.OrientationLeadsUrlPath` | handler_upload_video.go:86-98 | The object's URL starts with the virtual-hosted S3 host of the bucket and region. The first path segment after the host is the orientation. |
| `VideoUpload.AuthorizeFailure` | handler_upload_video.go:24-51 | When the id, token, JWT, lookup and ownership checks all pass, the record exists and its owner is the authenticated user. |
| `VideoUpload.StagingFailure` | handler_upload_video.go:53-80 | When the form, MIME, type and staging checks all pass, the media type is exactly `video/mp4`. |
| `VideoUpload.AuthorizeFollowsChecks` | handler_upload_video.go:24-51 | The first failing check among id (400), token (401), JWT (401), `GetVideo` (500) and owner (401) decides the response. If none fails, the request goes on. |
| `VideoUpload.StagingFollowsChecks` | handler_upload_video.go:53-80 | The first failing check among form file (400), MIME parse (400), `video/mp4` (400), temp file (500) and copy (500) decides the response. If none fails, the request goes on. |
| `VideoUpload.PublishFollowsChecks` | handler_upload_video.go:81-102 | The first failing check decides the response. The checks are probe (500), empty stream list (aborted), `PutObject` (500) and `UpdateVideo` (500). The store is unchanged unless all pass. `PutObject` is attempted iff the probe gave an orientation. `UpdateVideo` is called iff `PutObject` succeeded. |
| `VideoUpload.VideoFollowsGuards` | handler_upload_video.go:24-102 | Over all fourteen checks in source order: the first failing one decides the response, and the store changes only when all pass. `PutObject` is attempted iff the first twelve pass. `UpdateVideo` is called iff the first thirteen pass. |
| `VideoUpload.VideoSuccessSetsOnlyUrl` | handler_upload_video.go:86-101 | A successful upload had media type `video/mp4`, a record for the id, and a non-empty stream list. The object is put under `<orientation of the first stream>/<asset path>` with content type `video/mp4`. The record passed to `UpdateVideo`, and the one stored, is the old record with only `videoUrl` replaced by the object's URL. Nothing else in the store changes, and records stay keyed by id. |
| `VideoUpload.PublishSuccess` | handler_upload_video.go:86-101 | When publishing succeeds, the fetched record with its `videoUrl` set is put under its own id, and no other record changes. |
| `VideoUpload.VideoFailureLeavesStore` | handler_upload_video.go:24-102 | Every failed or aborted request leaves the store unchanged. |
| `VideoUpload.OnlyMp4ReachesStaging` | handler_upload_video.go:58-66 | A media type other than `video/mp4`, or a MIME parse failure, never reaches S3 or the store and never succeeds. Once the earlier checks pass, the response is the 400 of the MIME or type check. |
| `VideoUpload.ApiConfig.HandlerUploadVideo` | handler_upload_video.go:21-103 | The imperative handler's response, S3 request, store request and final store contents are exactly those of `UploadVideo` on the store's initial contents. The store's invariant is kept. |
| `ThumbnailUpload.DataUriRoundTrip` | handler_upload_thumbnail.go:66-68 | Reading the thumbnail reference back gives the header's content type verbatim and exactly the image bytes. |
| `ThumbnailUpload.ParseDataUriExact` | handler_upload_thumbnail.go:66-68 | Every URI the reader accepts is exactly `data:` + content type + `;base64,` + base64 of the bytes it reads. |
| `ThumbnailUpload.RequestFailure` | handler_upload_thumbnail.go:18-55 | When the id, token, JWT, multipart, form-file and read checks all pass, the video id, user id, content type and image bytes are all present. |
| `ThumbnailUpload.RequestFollowsChecks` | handler_upload_thumbnail.go:18-55 | The first failing check decides the response: id (400), token (401), JWT (401), multipart parse (500), `thumbnail` part (400), read (500). If none fails, the request goes on. |
| `ThumbnailUpload.RecordFollowsChecks` | handler_upload_thumbnail.go:56-83 | After the request checks, the first failing check among `GetVideo` (500), owner (401) and `UpdateVideo` (500) decides the response. The store is unchanged unless all pass, and `UpdateVideo` is called iff the record was found and the owner matches. |
| `ThumbnailUpload.ThumbnailFollowsGuards` | handler_upload_thumbnail.go:18-83 | Over all nine checks in source order: the first failing one decides the response, and the store changes only when all pass. A 200 JSON response comes iff all pass. `UpdateVideo` is called iff the first eight pass. |
| `ThumbnailUpload.ThumbnailSuccess` | handler_upload_thumbnail.go:66-83 | On success the response is 200 carrying the record that was passed to `UpdateVideo` and stored. That record is the old one with only `thumbnailUrl`, set to the `data:` URI, and `updatedAt`, set to now, replaced. Its id, creation time, video URL and creation parameters, including the owner, are kept. Nothing else in the store changes. The URI reads back as the content type and image. |
| `ThumbnailUpload.NonOwnerRefused` | handler_upload_thumbnail.go:61-64 | A caller who does not own the video never reaches `UpdateVideo`, never changes the store and never succeeds. Past the request and lookup checks, they get 401 "Couldn't update video". |
| `ThumbnailUpload.ContentTypeNotChecked` | handler_upload_thumbnail.go:49-68 | Changing the part's content type changes neither the status nor the store's ids. On success, the new content type appears verbatim in the reference. |
| `ThumbnailUpload.ThumbnailFailureLeavesStore` | handler_upload_thumbnail.go:18-81 | Every request that does not succeed leaves the store unchanged. |

## Left out

- `AspectRatio.Classify`: the test is exact rational arithmetic, not `float64` division and
  subtraction. Dimensions within rounding distance of a band edge could classify differently in
  the source. A zero height gives `other` in both.
- `VideoUpload.ApiConfig.HandlerUploadVideo`: `http.MaxBytesReader` and its 1 GiB limit on the
  body are left out. A body over the limit shows up only as a failing form-file step.
- The 10 MiB `maxMemory` of `ParseMultipartForm` is left out. It is one of the causes of the
  multipart-parse failure input.
- `respondWithError` and `respondWithJSON` are not part of this model. A response is the status with
  the message, or the status with the record.
- uuid parsing, bearer-token extraction and JWT validation (`internal/auth`) are foreign calls.
  They are inputs that give an id or a failure.
- `mime.ParseMediaType` is a standard-library parser. Its result is an input: the media type with
  its parameters dropped, or a failure.
- ffprobe is a subprocess and `encoding/json` a decoder. Their output is an input: a failed command,
  a failed unmarshal, or the list of (width, height) pairs. A stream without dimensions decodes as 0.
- Temp-file creation, `io.Copy`, `Seek`, and the deferred `Close` and `os.Remove` are OS resource
  handling. Only creation and copying can fail, and both are failure inputs. The file's bytes are
  not modelled; the `PutObject` request records bucket, key and content type only.
- The S3 client and the AWS SDK are a black-box success or failure.
- `getAssetPath` is not part of this model. Its result is an opaque string input.
- `time.Now()` is a parameter.
- `Database.Lookup`: a missing id is assumed to come back from `GetVideo` as an error, not as a
  zero record with a nil error. The handlers show only that a `GetVideo` error gives 500.
- The `internal/database` package is not part of this model. The record's creation parameters are
  modelled as title, description and owner id, and `UpdateVideo` as a write under the record's id.
- `fmt.Println` logging is left out. It has no effect on responses or state.
- Concurrent requests and races on the metadata store are left out. Each request runs against one
  snapshot of the store.
