/** The artist query of the mashup (mashup/src/main.rs, `WebMeshup::query` and
    `FileMeshup::query`): fetch the artist's metadata, decode it, enrich its
    albums through the cover-art fan-out, and return the artist. Only a failed
    artist fetch is an error of the query; a payload that does not decode is
    unwrapped and panics. */
module Meshup {
  import opened Wrappers
  import opened Errors
  import opened JsonTree
  import opened Structs
  import opened Resources
  import opened CoverArt

  /** The two implementations of the `Meshup` trait. */
  datatype Mode = FileMeshup | WebMeshup

  /** `artist_resource_by_id`. The file variant answers with the cover-art file
      name: the two file templates are swapped between the two methods. */
  function ArtistResourceById(mode: Mode, id: string): (r: string)
    ensures mode.WebMeshup? ==> r == MusicbrainzUrl(id)
    ensures mode.FileMeshup? ==> r == FormatFileName(CoverArt, id)
  {
    match mode
    case WebMeshup => MusicbrainzUrl(id)
    case FileMeshup => CoverArtFile(id)
  }

  /** `album_resource_by_id`, swapped like `ArtistResourceById` in file mode. */
  function AlbumResourceById(mode: Mode, id: string): (r: string)
    ensures mode.WebMeshup? ==> r == CoverArtUrl(id)
    ensures mode.FileMeshup? ==> r == FormatFileName(Musicbrainz, id)
  {
    match mode
    case WebMeshup => CoverArtUrl(id)
    case FileMeshup => MusicbrainzFile(id)
  }

  /** The file query asks `album_resource_by_id` for the artist's file; the swap
      makes that the artist's metadata cache file after all. */
  lemma FileModeReadsMetadataFile(id: string)
    ensures AlbumResourceById(FileMeshup, id) == FormatFileName(Musicbrainz, id)
    ensures AlbumResourceById(FileMeshup, id) != FormatFileName(CoverArt, id)
  {
    if AlbumResourceById(FileMeshup, id) == FormatFileName(CoverArt, id) {
      FileNamesAreDistinct(Musicbrainz, id, CoverArt, id);
    }
  }

  /** `process_mb_response`: parse and decode the artist payload, unwrapping
      both steps. */
  function ProcessMbResponse(payload: string, parse: Parser): (r: Outcome<ArtistReference>)
    ensures r.Returned? <==> parse(payload).Some? && ArtistDecoding(parse(payload).value).Ok?
    ensures r.Returned? ==> r.value == ArtistDecoding(parse(payload).value).value
  {
    match parse(payload)
    case None => Panicked
    case Some(j) =>
      match ArtistDecoding(j)
      case Err(_) => Panicked
      case Ok(artist) => Returned(artist)
  }

  /** The network cover-art accessor of `WebMeshup::query`. */
  function WebCoverArt(http: Http): Fetch {
    (id: string) => ReadResourceFromUrl(http, CoverArtUrl(id))
  }

  /** The network accessor answers for a release group with the body of a 200
      response to its cover-art URL; any failure is tagged with that URL. */
  lemma WebCoverArtFetches(http: Http, id: string)
    ensures WebCoverArt(http)(id).Ok? <==> http(CoverArtUrl(id)).Response? && http(CoverArtUrl(id)).status == 200
    ensures WebCoverArt(http)(id).Ok? ==> WebCoverArt(http)(id).value == http(CoverArtUrl(id)).body
    ensures WebCoverArt(http)(id).Err? ==> WebCoverArt(http)(id).error.resource == CoverArtUrl(id)
  {
  }

  /** The file cover-art accessor of `FileMeshup::query`. */
  function FileCoverArt(files: map<string, string>): Fetch {
    (id: string) => SimpleFsRead(ProviderFs(CoverArt), files, CoverArtFile(id))
  }

  /** The file accessor answers for a release group with the content of its
      cover-art cache file under "tmp", or a not-found error for that path. */
  lemma FileCoverArtReads(files: map<string, string>, id: string)
    ensures FileCoverArt(files)(id).Ok? <==> JoinPath("tmp", CoverArtFile(id)) in files
    ensures FileCoverArt(files)(id).Ok? ==> FileCoverArt(files)(id).value == files[JoinPath("tmp", CoverArtFile(id))]
    ensures FileCoverArt(files)(id).Err? ==> FileCoverArt(files)(id).error == TypedIOError(JoinPath("tmp", CoverArtFile(id)), NotFound)
  {
  }

  /** `WebMeshup::query`. The fan-out is given the artist's NAME as artist id. */
  function WebQuery(id: string, http: Http, parse: Parser): (r: Outcome<Result<ArtistReference, ResourceError>>)
    ensures var fetched := ReadResourceFromUrl(http, MusicbrainzUrl(id));
      fetched.Err? ==> r == Returned(Err(ArtistError(id, fetched.error)))
    ensures var fetched := ReadResourceFromUrl(http, MusicbrainzUrl(id));
      r.Returned? && r.value.Ok? ==>
        && fetched.Ok?
        && ProcessMbResponse(fetched.value, parse).Returned?
        && r.value.value.name == ProcessMbResponse(fetched.value, parse).value.name
  {
    match ReadResourceFromUrl(http, ArtistResourceById(WebMeshup, id))
    case Err(err) => Returned(Err(ArtistError(id, err)))
    case Ok(payload) =>
      var artist :- ProcessMbResponse(payload, parse);
      var albums :- FanOut(artist.name, artist.albums, WebCoverArt(http), parse);
      Returned(Ok(ArtistReference(artist.name, albums)))
  }

  /** `FileMeshup::query`. The fan-out is given the artist id. */
  function FileQuery(id: string, files: map<string, string>, parse: Parser): (r: Outcome<Result<ArtistReference, ResourceError>>)
    ensures var path := JoinPath("tmp", MusicbrainzFile(id));
      path !in files ==> r == Returned(Err(ArtistError(id, TypedIOError(path, NotFound))))
    ensures var path := JoinPath("tmp", MusicbrainzFile(id));
      r.Returned? && r.value.Ok? ==>
        && path in files
        && ProcessMbResponse(files[path], parse).Returned?
        && r.value.value.name == ProcessMbResponse(files[path], parse).value.name
  {
    match SimpleFsRead(ProviderFs(Musicbrainz), files, AlbumResourceById(FileMeshup, id))
    case Err(err) => Returned(Err(ArtistError(id, err)))
    case Ok(payload) =>
      var artist :- ProcessMbResponse(payload, parse);
      var albums :- FanOut(id, artist.albums, FileCoverArt(files), parse);
      Returned(Ok(ArtistReference(artist.name, albums)))
  }

  /** The artist fetch in the web query fails: the query returns an artist error
      with the id and that failure, and no cover art is fetched (the result is
      the same whatever the network answers for any other URL). */
  lemma {:induction false} WebQueryArtistFailure(id: string, http: Http, other: Http, parse: Parser)
    requires ReadResourceFromUrl(http, MusicbrainzUrl(id)).Err?
    requires other(MusicbrainzUrl(id)) == http(MusicbrainzUrl(id))
    ensures var fetched := ReadResourceFromUrl(http, MusicbrainzUrl(id));
      WebQuery(id, http, parse) == Returned(Err(ArtistError(id, fetched.error)))
    ensures WebQuery(id, other, parse) == WebQuery(id, http, parse)
  {
    assert ReadResourceFromUrl(other, MusicbrainzUrl(id)) == ReadResourceFromUrl(http, MusicbrainzUrl(id));
  }

  /** The same for the file query: no cover-art file is read. */
  lemma {:induction false} FileQueryArtistFailure(id: string, files: map<string, string>, other: map<string, string>, parse: Parser)
    requires SimpleFsRead(SimpleFs("tmp"), files, MusicbrainzFile(id)).Err?
    requires JoinPath("tmp", MusicbrainzFile(id)) !in other
    ensures var path := JoinPath("tmp", MusicbrainzFile(id));
      FileQuery(id, files, parse) == Returned(Err(ArtistError(id, TypedIOError(path, NotFound))))
    ensures FileQuery(id, other, parse) == FileQuery(id, files, parse)
  {
  }

  /** A successful web query returns the decoded name with the albums the
      fan-out produced from the decoded albums. */
  lemma {:induction false} WebQuerySuccess(id: string, http: Http, parse: Parser)
    requires var fetched := ReadResourceFromUrl(http, MusicbrainzUrl(id));
      fetched.Ok? && ProcessMbResponse(fetched.value, parse).Returned?
    ensures var artist := ProcessMbResponse(ReadResourceFromUrl(http, MusicbrainzUrl(id)).value, parse).value;
      var fanOut := FanOut(artist.name, artist.albums, WebCoverArt(http), parse);
      && (WebQuery(id, http, parse).Returned? <==> fanOut.Returned?)
      && (fanOut.Returned? ==> WebQuery(id, http, parse).value == Ok(ArtistReference(artist.name, fanOut.value)))
  {
  }

  /** A successful file query returns the decoded name with the albums the
      fan-out produced from the decoded albums. */
  lemma {:induction false} FileQuerySuccess(id: string, files: map<string, string>, parse: Parser)
    requires var read := SimpleFsRead(SimpleFs("tmp"), files, MusicbrainzFile(id));
      read.Ok? && ProcessMbResponse(read.value, parse).Returned?
    ensures var artist := ProcessMbResponse(SimpleFsRead(SimpleFs("tmp"), files, MusicbrainzFile(id)).value, parse).value;
      var fanOut := FanOut(id, artist.albums, FileCoverArt(files), parse);
      && (FileQuery(id, files, parse).Returned? <==> fanOut.Returned?)
      && (fanOut.Returned? ==> FileQuery(id, files, parse).value == Ok(ArtistReference(artist.name, fanOut.value)))
  {
  }

  /** Album failures never reach the result of the web query: the only error
      it returns is the artist error for the requested id. */
  lemma {:induction false} WebQueryErrorsAreArtistErrors(id: string, http: Http, parse: Parser)
    ensures var w := WebQuery(id, http, parse);
      w.Returned? && w.value.Err? ==> w.value.error == ArtistError(id, ReadResourceFromUrl(http, MusicbrainzUrl(id)).error)
  {
    var w, fetched := WebQuery(id, http, parse), ReadResourceFromUrl(http, MusicbrainzUrl(id));
    if fetched.Ok? && w.Returned? {
      var payload := fetched.value;
      var artist := ProcessMbResponse(payload, parse).value;
      assert w.value == Ok(ArtistReference(artist.name, FanOut(artist.name, artist.albums, WebCoverArt(http), parse).value));
    }
  }

  /** Album failures never reach the result of the file query either. */
  lemma {:induction false} FileQueryErrorsAreArtistErrors(id: string, files: map<string, string>, parse: Parser)
    ensures var f := FileQuery(id, files, parse);
      f.Returned? && f.value.Err? ==> f.value.error == ArtistError(id, SimpleFsRead(SimpleFs("tmp"), files, MusicbrainzFile(id)).error)
  {
    var f, read := FileQuery(id, files, parse), SimpleFsRead(SimpleFs("tmp"), files, MusicbrainzFile(id));
    if read.Ok? && f.Returned? {
      var payload := read.value;
      var artist := ProcessMbResponse(payload, parse).value;
      assert f.value == Ok(ArtistReference(artist.name, FanOut(id, artist.albums, FileCoverArt(files), parse).value));
    }
  }

  /** The two queries hand different artist ids to the fan-out (the name in web
      mode, the id in file mode); the enriched albums are the same either way. */
  lemma {:induction false} WebQueryAsIfGivenId(id: string, http: Http, parse: Parser)
    requires var fetched := ReadResourceFromUrl(http, MusicbrainzUrl(id));
      fetched.Ok? && ProcessMbResponse(fetched.value, parse).Returned?
    ensures var artist := ProcessMbResponse(ReadResourceFromUrl(http, MusicbrainzUrl(id)).value, parse).value;
      var fanOut := FanOut(id, artist.albums, WebCoverArt(http), parse);
      && (WebQuery(id, http, parse).Returned? <==> fanOut.Returned?)
      && (fanOut.Returned? ==> WebQuery(id, http, parse).value == Ok(ArtistReference(artist.name, fanOut.value)))
  {
    var fetched := ReadResourceFromUrl(http, MusicbrainzUrl(id));
    var artist := ProcessMbResponse(fetched.value, parse).value;
    FanOutIgnoresArtistId(artist.name, id, artist.albums, WebCoverArt(http), parse);
  }

  /** A two-album scenario: album B1's cover art is served, B2's lookup is
      refused with a 404. B1 comes back with its image, B2 as a placeholder
      with its title, in that order. The metadata lists a third release group,
      which the decoder drops. */
  lemma {:induction false} TwoAlbumScenario(http: Http, parse: Parser, name: string, url: string, b1: string, b2: string)
    requires http(MusicbrainzUrl("A1")) == Response(200, "artist")
    requires parse("artist") == Some(ArtistJson(name, [ReleaseGroupJson(b1, "T1"), ReleaseGroupJson(b2, "T2"), ReleaseGroupJson("B3", "T3")]))
    requires http(CoverArtUrl(b1)) == Response(200, "cover")
    requires parse("cover") == Some(JObject(map["images" := JArray([JObject(map["front" := JBool(true), "image" := JString(url)])])]))
    requires http(CoverArtUrl(b2)) == Response(404, "")
    ensures WebQuery("A1", http, parse) == Returned(Ok(ArtistReference(name, [
              AlbumReference(b1, "T1", Some(url), false),
              AlbumReference(b2, "T2", None, true)])))
  {
    var albums := [AlbumReference(b1, "T1", None, false), AlbumReference(b2, "T2", None, false)];
    ScenarioMetadata(parse, name, b1, b2);
    var fetch := WebCoverArt(http);
    assert fetch(b1) == Ok("cover");
    assert fetch(b2).Err?;
    ScenarioCoverArt(fetch, parse, name, url, albums);
  }

  lemma {:induction false} ScenarioMetadata(parse: Parser, name: string, b1: string, b2: string)
    requires parse("artist") == Some(ArtistJson(name, [ReleaseGroupJson(b1, "T1"), ReleaseGroupJson(b2, "T2"), ReleaseGroupJson("B3", "T3")]))
    ensures ProcessMbResponse("artist", parse)
         == Returned(ArtistReference(name, [AlbumReference(b1, "T1", None, false), AlbumReference(b2, "T2", None, false)]))
  {
    var albums := [AlbumReference(b1, "T1", None, false), AlbumReference(b2, "T2", None, false), AlbumReference("B3", "T3", None, false)];
    DecodeDropsLastReleaseGroup(name, albums);
    assert [ReleaseGroupJson(b1, "T1"), ReleaseGroupJson(b2, "T2"), ReleaseGroupJson("B3", "T3")]
        == seq(|albums|, i requires 0 <= i < |albums| => ReleaseGroupJson(albums[i].id, albums[i].title));
    assert albums[..2] == [AlbumReference(b1, "T1", None, false), AlbumReference(b2, "T2", None, false)];
  }

  lemma {:induction false} ScenarioCoverArt(fetch: Fetch, parse: Parser, name: string, url: string, albums: seq<AlbumReference>)
    requires |albums| == 2 && albums[0] == AlbumReference(albums[0].id, "T1", None, false)
    requires albums[1] == AlbumReference(albums[1].id, "T2", None, false)
    requires fetch(albums[0].id) == Ok("cover") && fetch(albums[1].id).Err?
    requires parse("cover") == Some(JObject(map["images" := JArray([JObject(map["front" := JBool(true), "image" := JString(url)])])]))
    ensures FanOut(name, albums, fetch, parse)
         == Returned([AlbumReference(albums[0].id, "T1", Some(url), false), AlbumReference(albums[1].id, "T2", None, true)])
  {
    SingleFrontImagePayload("cover", parse, url);
    FanOutPreservesOrder(name, albums, fetch, parse);
    var fanOut := FanOut(name, albums, fetch, parse);
    assert fanOut.Returned? && |fanOut.value| == 2;
    FanOutAttachesImage(name, albums, fetch, parse, 0);
    FanOutSubstitutesPlaceholder(name, albums, fetch, parse, 1);
    assert fanOut.value == [fanOut.value[0], fanOut.value[1]];
  }
}
