# mashup, modelled in Dafny

mashup looks up a music artist by MusicBrainz id. It reads the artist's
metadata from the MusicBrainz web service (web mode) or from a cached file
(file mode). It decodes the artist's name and release groups, the albums. It
then looks up each album's cover art, one thread per album, at the Cover Art
Archive (web mode) or from its cached file (file mode), and attaches the front image's URL to the album. An album whose lookup
fails is replaced by a placeholder marked `error`. An artist whose metadata
cannot be fetched yields an `ArtistError`.

The model is split into these modules:

- `Wrappers`: `Option`, `Result`, and `Outcome`. An `Outcome` is either a
  returned value or a panic. In the modelled functions, every `unwrap` and
  arithmetic underflow is made visible as a `Panicked` outcome or a decode
  error, never hidden behind a precondition. There are two exceptions. The
  placeholder conversion's `unreachable!()` is a precondition, because the
  source itself declares that conversion partial. The `expect` inside the
  stderr logging is left out together with the logging. The unwraps of `main`
  and of `extract_id` are outside the modelled functions (see "Left out").
- `Errors` (errors.rs):
  - the error taxonomy;
  - the narrowing to `TypedIOError`;
  - `Display`, `description`, and `cause`.
- `JsonTree`: an already-parsed JSON tree and the field readers of
  rustc_serialize's decoder. The text parser is a parameter (`Parser`).
- `Structs` (structs.rs):
  - the records;
  - `with_image`;
  - the placeholder conversion;
  - the decoders. The artist decoder keeps its loop as a method, proved
    against a specification function.
- `Resources` (main.rs, the accessor side):
  - the URL and cache-file templates and `format_file_name`;
  - the status filter;
  - reading from the network and from the cache;
  - the write-once store, as a class whose `files` map is updated in place.

  The network is a function from URL to response. The disk is a map from path
  to content.
- `CoverArt` (main.rs, `query_cover_art` and `image_from_cover_art_response`):
  - `Spawn` says what each thread sends on its own channel.
  - `Merge` receives from the channels in spawn order.
  - `QueryCoverArt` runs the two loops of the source and is proved equal to
    `FanOut`. The source has two verbatim copies of this function: the free
    function and the trait's default method.
- `Meshup` (main.rs): `WebMeshup::query` and `FileMeshup::query`, with the
  network and the disk as parameters.

Where the code does something other than one would expect, the model follows
the code:

- The artist decoder reads release groups `0 .. len - 1`, so the last release
  group never reaches the result. An empty list underflows the bound and
  panics. `Structs.DecodeDropsLastReleaseGroup` proves what the decoder does
  instead of a round trip.
- `FileMeshup` has its two resource templates swapped. It asks
  `album_resource_by_id` for the artist's metadata file, so it still reads the
  metadata file (`Meshup.FileModeReadsMetadataFile`).
- `WebMeshup::query` hands the artist's name to the fan-out as `artist_id`.
  `FileMeshup::query` hands it the id. That value only reaches album errors,
  and the placeholder drops it. `CoverArt.FanOutIgnoresArtistId` proves the
  difference cannot be observed in the result.

## Model

| member | source | states |
|---|---|---|
| Errors.NarrowToTypedIOError | mashup/src/errors.rs:20-27 | both variants narrow to exactly their inner transport error |
| Errors.NarrowingForgetsLevel | mashup/src/errors.rs:20-27 | an album error and an artist error over the same transport error narrow to the same value |
| Errors.TypedIOErrorText | mashup/src/errors.rs:29-33 | the rendering is "Underlying IO Error when accessing ", then the resource, ": " and the cause, with its length and each part at its offset |
| Errors.ResourceErrorText | mashup/src/errors.rs:35-42 | an album error renders "AlbumError for id=", then artist id "-" album id, ": " and the rendered cause; an artist error renders "ArtistError for id=", then the artist id, ": " and the rendered cause |
| Errors.AlbumErrorTextIgnoresTitle | mashup/src/errors.rs:38 | two album errors that differ only in their title render identically |
| Errors.TextDistinguishesLevels | mashup/src/errors.rs:38-39 | no album error renders like an artist error |
| Errors.TypedIOErrorDescription | mashup/src/errors.rs:45-47 | the description is the fixed text "Underyling IO Error", misspelled as in the source |
| Errors.ResourceErrorDescription | mashup/src/errors.rs:55-60 | "Error while parsing Album" for album errors, "Error while parsing Artist" for artist errors |
| Errors.DescriptionIdentifiesVariant | mashup/src/errors.rs:55-60 | two descriptions are equal exactly when the errors are of the same variant |
| Errors.TypedIOErrorCause | mashup/src/errors.rs:49-51 | the cause is always present and is the wrapped transport error |
| Errors.ResourceErrorCause | mashup/src/errors.rs:62-67 | the cause is always present and equals the narrowing of the error to its `TypedIOError` |
| JsonTree.Field | mashup/src/structs.rs:58-60 | a field read succeeds exactly on an object that has the field, yielding its value; a non-object is an "Object" type error, and an absent field is a missing-field error naming it |
| JsonTree.StringField | mashup/src/structs.rs:59 | succeeds exactly when the field is present and a string, yielding the string; a failed field read passes its error through |
| JsonTree.BoolField | mashup/src/structs.rs:14-18 | succeeds exactly when the field is present and a boolean, yielding it; a failed field read passes its error through |
| JsonTree.ArrayField | mashup/src/structs.rs:60-61 | succeeds exactly when the field is present and an array, yielding its elements; a failed field read passes its error through |
| JsonTree.DecodeEachMeaning | mashup/src/structs.rs:64-67 | decoding elements with `try!` succeeds exactly when every element decodes, and then yields them in order; otherwise it fails with the error of the first element that does not decode, all earlier ones having decoded |
| Structs.WithImage | mashup/src/structs.rs:35-39 | the image becomes `Some(image)`; id, title and error flag are unchanged |
| Structs.PlaceholderFrom | mashup/src/structs.rs:42-53 | only album errors convert; the placeholder has the album id, the title or "" when there is none, no image, and the error flag set |
| Structs.PlaceholderKeepsOnlyAlbumIdentity | mashup/src/structs.rs:45-50 | album errors with the same album id and title give the same placeholder, whatever their artist id and cause |
| Structs.DecodeAlbumReference | mashup/src/structs.rs:83-94 | succeeds exactly when `id` and `title` are readable strings and then takes them from those fields, with no image and no error flag; a failing `id` is reported before a failing `title` |
| Structs.DecodeImage | mashup/src/structs.rs:14-18 | succeeds exactly when `front` is a boolean and `image` a string, yielding both |
| Structs.DecodeCoverArtResponse | mashup/src/structs.rs:9-12 | succeeds exactly when `images` is an array whose every element decodes, yielding the images one per element in order |
| Structs.DecodeArtistReference | mashup/src/structs.rs:56-81 | the loop that pushes each decoded release group into a buffer computes the artist decoding: name, then release groups `0 .. len - 1` with `try!`, and an underflow on an empty array |
| Structs.ArtistDecoding | mashup/src/structs.rs:56-81 | a decoded artist has the `name` field's string; a failing `name` is reported first, then a failing `release-groups`, then an empty array as an underflow; success needs at least one release group |
| Structs.DecodeEachExtend | mashup/src/structs.rs:64-67 | one more decoded element extends the decoded prefix by that element |
| Structs.FirstFailureWins | mashup/src/structs.rs:65 | when all elements before index k decode and element k does not, the whole decode fails with element k's error |
| Structs.ArtistDecodingKeepsAllButLast | mashup/src/structs.rs:59-69 | a decoded artist has the `name` field and, in order, one album per release group except the last, each the decoding of its release group |
| Structs.DecodeDropsLastReleaseGroup | mashup/src/structs.rs:64 | decoding the metadata built from albums a0..an yields a0..a(n-1): the last release group is dropped |
| Structs.EmptyReleaseGroupsUnderflow | mashup/src/structs.rs:64 | an artist with no release groups does not decode: the bound `len - 1` underflows |
| Structs.LastReleaseGroupIsIgnored | mashup/src/structs.rs:61-69 | replacing the last release group by any value does not change the decoding |
| Resources.FormatFileName | mashup/src/main.rs:368-373 | the name is "mb_" (MusicBrainz) or "ca_" (Cover Art), then the id, then ".json": the `musicbrainz_file!` and `cover_art_file!` templates of mashup/src/main.rs:42-52 |
| Resources.FileNamesAreDistinct | mashup/src/main.rs:42-52 | two cache file names are equal only for the same provider and the same id |
| Resources.MusicbrainzUrlParts | mashup/src/main.rs:37-40 | the artist URL is the MusicBrainz artist path, the id, then the JSON query for URL relations and release groups, each part at its offset |
| Resources.CoverArtUrlParts | mashup/src/main.rs:46-48 | the cover-art URL is the Cover Art Archive release-group path followed by the id |
| Resources.ProviderFs | mashup/src/main.rs:355-360 | both providers store under the directory "tmp" |
| Resources.DecimalText | mashup/src/main.rs:67 | the rendered status code is a non-empty string of decimal digits |
| Resources.StatusCause | mashup/src/main.rs:65-68 | a rejected status fails with "Service responded with statuscode " followed by the code in decimal |
| Resources.StatusCauseIdentifiesStatus | mashup/src/main.rs:65-68 | different rejected status codes produce different failures |
| Resources.FilterSuccessful | mashup/src/main.rs:56-70 | `Ok(body)` exactly when the status is 200; otherwise an error tagged with the given resource whose cause reports the status |
| Resources.ReadResourceFromUrl | mashup/src/main.rs:168-194 | `Ok` exactly on a 200 response, with its body; every error is tagged with the URL and carries the transport failure or the rejected status |
| Resources.ReadResourceFromFile | mashup/src/main.rs:228-241 | `Ok` exactly when the path exists, with its whole content; otherwise a not-found error tagged with the path |
| Resources.SimpleFsRead | mashup/src/main.rs:80-86 | reads the file joined to the store's directory: `Ok` with its whole content exactly when it exists; an error is tagged with that path |
| Resources.Disk.Store | mashup/src/main.rs:88-97 | write-once: an existing file keeps its content, a missing one is created with the content, a read afterwards yields the surviving content, and no other path changes |
| CoverArt.FrontImage | mashup/src/main.rs:330 | `None` exactly when no image is marked front; otherwise the URL of the first image marked front |
| CoverArt.FirstFrontImageIsTaken | mashup/src/main.rs:330 | of two front images after a non-front one, the first front image is taken |
| CoverArt.ImageFromCoverArtResponse | mashup/src/main.rs:327-331 | returns exactly when the payload parses, decodes and has a front image, and then returns the first front image's URL; otherwise it panics |
| CoverArt.SingleFrontImagePayload | mashup/src/main.rs:333-340 | a payload with a single front image yields that image's URL |
| CoverArt.Worker | mashup/src/main.rs:130-145 | a failed fetch always sends the album error carrying the artist id, the album's id and title, and the fetch failure; a successful fetch sends the album with the payload's front image attached, and the thread panics exactly when the payload yields no front image |
| CoverArt.Settle | mashup/src/main.rs:154-157 | a received album is kept; a received album error becomes a placeholder with the album's id, its title or "" when there is none, no image and the error flag |
| CoverArt.Merge | mashup/src/main.rs:151-158 | a returned merge has one album per channel, and a panicked first thread makes the merge panic |
| CoverArt.Spawn | mashup/src/main.rs:121-148 | one channel per album, in album order, each carrying what that album's thread sends |
| CoverArt.MergeInOrder | mashup/src/main.rs:151-158 | the merge returns exactly when no thread panicked, and then holds one settled result per channel, in channel order |
| CoverArt.FanOut | mashup/src/main.rs:116-161 | a returned fan-out has one album per input album |
| CoverArt.QueryCoverArt | mashup/src/main.rs:116-161 | the spawn loop followed by the receive loop computes the fan-out (the unused free function at mashup/src/main.rs:279-324 is the same code) |
| CoverArt.SpawnWorkers | mashup/src/main.rs:121-148 | the first loop collects one channel per album, in album order |
| CoverArt.ReceiveInOrder | mashup/src/main.rs:151-160 | the second loop receives from the channels in order and computes the merge |
| CoverArt.FanOutPreservesOrder | mashup/src/main.rs:121-158 | the fan-out panics exactly when some album's fetch succeeded with a payload that yields no front image; otherwise it keeps the length and, index by index, the ids and titles |
| CoverArt.FanOutAttachesImage | mashup/src/main.rs:131-136 | when the fan-out returns, an album whose fetch succeeded comes back as itself with the payload's front image attached |
| CoverArt.FanOutSubstitutesPlaceholder | mashup/src/main.rs:137-157 | when the fan-out returns, an album whose fetch failed comes back with its id and title, no image and the error flag set |
| CoverArt.FanOutIsLocal | mashup/src/main.rs:130-145 | when both fan-outs return, album i depends only on the fetch result for album i's id |
| CoverArt.FanOutAllFetched | mashup/src/main.rs:131-136 | when every fetch succeeds and the fan-out returns, every album has an image and keeps its error flag |
| CoverArt.WorkerIgnoresArtistId | mashup/src/main.rs:137-142 | a thread's settled result does not depend on the artist id |
| CoverArt.FanOutIgnoresArtistId | mashup/src/main.rs:137-157 | the fan-out's result does not depend on the artist id it is given |
| Meshup.FileModeReadsMetadataFile | mashup/src/main.rs:244-253 | the swapped template the file query uses names the MusicBrainz cache file, not the cover-art one |
| Meshup.ProcessMbResponse | mashup/src/main.rs:343-347 | returns exactly when the payload parses and decodes as an artist, and then returns that artist; otherwise it panics |
| Meshup.ArtistResourceById | mashup/src/main.rs:197-203 | in web mode the MusicBrainz artist URL; in file mode the cover-art cache file name (the templates are swapped, see mashup/src/main.rs:248-250) |
| Meshup.AlbumResourceById | mashup/src/main.rs:244-250 | in file mode the MusicBrainz cache file name; in web mode the cover-art URL (mashup/src/main.rs:197-199) |
| Meshup.WebCoverArtFetches | mashup/src/main.rs:216-219 | the web accessor answers for a release group with the body of a 200 response to its cover-art URL; any failure is tagged with that URL |
| Meshup.FileCoverArtReads | mashup/src/main.rs:264-269 | the file accessor answers for a release group with the content of its cover-art cache file under "tmp", or a not-found error for that path |
| Meshup.WebQuery | mashup/src/main.rs:205-225 | a failed artist fetch gives `ArtistError` with the id and that failure; an `Ok` result needs a successful fetch and decode, and carries the decoded name |
| Meshup.FileQuery | mashup/src/main.rs:252-275 | a missing metadata file gives `ArtistError` with the id and a not-found error for its path; an `Ok` result needs the file and its decode, and carries the decoded name |
| Meshup.WebQueryArtistFailure | mashup/src/main.rs:205-213 | a failed metadata fetch gives `ArtistError` with the id and that failure, and the answer to any other URL does not matter |
| Meshup.FileQueryArtistFailure | mashup/src/main.rs:252-261 | a missing metadata file gives `ArtistError` with the id and a not-found error for that path, and no other file matters |
| Meshup.WebQuerySuccess | mashup/src/main.rs:215-224 | after a successful metadata fetch and decode, the web query returns `Ok` with the decoded name and the fan-out's albums, or panics when the fan-out does |
| Meshup.FileQuerySuccess | mashup/src/main.rs:263-274 | after a successful metadata read and decode, the file query returns `Ok` with the decoded name and the fan-out's albums, or panics when the fan-out does |
| Meshup.WebQueryErrorsAreArtistErrors | mashup/src/main.rs:205-225 | the only error the web query returns is the artist error for the requested id |
| Meshup.FileQueryErrorsAreArtistErrors | mashup/src/main.rs:252-275 | the only error the file query returns is the artist error for the requested id |
| Meshup.WebQueryAsIfGivenId | mashup/src/main.rs:216 | the web query gives the same result as if it had handed the id, as the file query does, instead of the name |
| Meshup.ScenarioMetadata | mashup/src/main.rs:343-347 | metadata listing three release groups decodes to an artist with the first two |
| Meshup.ScenarioCoverArt | mashup/src/main.rs:121-158 | with the first album's cover art served and the second's fetch failing, the fan-out gives the first album with its image, then the second as a placeholder |
| Meshup.TwoAlbumScenario | mashup/src/main.rs:205-225 | end to end: with the first album's cover art served and the second refused with 404, the web query returns the name, the first album with its image and the second as a placeholder, and drops the third release group |

## Left out

- Threads, channels and `Arc` are not modelled as such. A thread's result
  depends only on its album and the fetch, and the merge receives in spawn
  order, so the model is the in-order map those threads compute. A thread
  that panics is modelled as the merge's `recv().unwrap()` panicking.
- The HTTP client, its request headers and the user agent are left out. The
  network is a function from URL to a status and body, or a transport
  failure.
- Resources.StatusCause: renders only the numeric status code, where hyper's
  `StatusCode` display also appends the canonical reason phrase.
- The body-read error that `filter_successful` ignores is left out. A 200
  response yields its body.
- Resources.ReadResourceFromFile: every failure is "not found". Other I/O
  error kinds (permissions, invalid UTF-8) are left out.
- `create_dir_all` is left out. So are the create and write errors that
  `SimpleFs::store` ignores: the model's disk never fails.
- `Path::join` is modelled for Unix paths only.
- The JSON text parser and `json::encode` belong to a foreign library. The
  parser is a parameter, and the decoders work on the parsed tree.
- `hyper::Error` is opaque. Only its rendering is kept.
- Structs.WithImage: modelled as a value update. Every caller updates its own
  clone, so no aliasing is lost.
- `Provider::extract_id` and the `meshup_mode_save_web` feature that uses it
  are not modelled, and neither are the unwraps inside the extraction. The
  extraction wraps a foreign URL parser.
- `main`, the `meshup_mode_web` feature switch between the two queries, the
  stderr logging and `print!` are output and process setup, and are not
  modelled. So are the panics they can raise: the `expect` in
  `println_stderr!`, which runs in the merge when an album failed, and
  `query(id).unwrap()` in `main`. The model's merge never fails to log.
- The `test_format_file_name` and `test_extract_id_from_url` tests are not
  modelled, because neither compiles. `test_format_file_name` names the
  nonexistent `Provider::COVER_ART` and `Provider::MUSICBRAINZ`, and it expects
  names without ".json". `test_extract_id_from_url` calls the method
  `extract_id` without a receiver.
