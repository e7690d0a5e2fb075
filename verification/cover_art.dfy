/** The cover-art fan-out of the mashup (mashup/src/main.rs, `query_cover_art`
    and `image_from_cover_art_response`). The source spawns one thread per album,
    each sending its result into a channel of its own, and then receives from the
    channels in spawn order. A thread's result depends only on its own album and
    on the fetch capability, so the observable behaviour is an order-preserving
    map: `Spawn` gives what each channel will deliver, `Merge` receives them in
    order. A thread that panics leaves its channel without a message, and the
    `recv().unwrap()` of the merge then panics too. */
module CoverArt {
  import opened Wrappers
  import opened Errors
  import opened JsonTree
  import opened Structs

  /** The cover-art accessor: a release-group id to the payload text, or a
      transport failure. */
  type Fetch = string -> Result<string, TypedIOError>

  /** `find(|item| item.front)`: the URL of the first image marked front. */
  function FrontImage(images: seq<Image>): (r: Option<string>)
    ensures r.None? <==> forall k :: 0 <= k < |images| ==> !images[k].front
    ensures r.Some? ==> exists k :: 0 <= k < |images| && images[k].front && images[k].image == r.value
                                    && forall m :: 0 <= m < k ==> !images[m].front
  {
    if |images| == 0 then None
    else if images[0].front then Some(images[0].image)
    else FrontImage(images[1..])
  }

  /** Of two front images the first is taken, whatever precedes it. */
  lemma FirstFrontImageIsTaken(u0: string, u1: string, u2: string)
    ensures FrontImage([Image(false, u0), Image(true, u1), Image(true, u2)]) == Some(u1)
  {
    assert [Image(false, u0), Image(true, u1), Image(true, u2)][1..] == [Image(true, u1), Image(true, u2)];
  }

  /** `image_from_cover_art_response`: parse and decode the payload, then take
      the front image; each of the three steps is unwrapped, so each failure is a
      panic. */
  function ImageFromCoverArtResponse(payload: string, parse: Parser): (r: Outcome<string>)
    ensures r.Returned? <==>
      && parse(payload).Some?
      && DecodeCoverArtResponse(parse(payload).value).Ok?
      && FrontImage(DecodeCoverArtResponse(parse(payload).value).value.images).Some?
    ensures r.Returned? ==> r.value == FrontImage(DecodeCoverArtResponse(parse(payload).value).value.images).value
  {
    match parse(payload)
    case None => Panicked
    case Some(j) =>
      match DecodeCoverArtResponse(j)
      case Err(_) => Panicked
      case Ok(response) =>
        match FrontImage(response.images)
        case None => Panicked
        case Some(url) => Returned(url)
  }

  /** The payload of the source's own test: one front image. */
  lemma SingleFrontImagePayload(payload: string, parse: Parser, url: string)
    requires parse(payload) == Some(JObject(map["images" := JArray([JObject(map["front" := JBool(true), "image" := JString(url)])])]))
    ensures ImageFromCoverArtResponse(payload, parse) == Returned(url)
  {
    var image := JObject(map["front" := JBool(true), "image" := JString(url)]);
    assert BoolField(image, "front") == Ok(true);
    assert StringField(image, "image") == Ok(url);
    assert DecodeImage(image) == Ok(Image(true, url));
  }

  /** What one thread sends: its album with the image attached, or an album
      error carrying the artist id, the album's id and title and the fetch
      failure; or the thread panics. */
  function Worker(artistId: string, album: AlbumReference, fetch: Fetch, parse: Parser)
    : (r: Outcome<Result<AlbumReference, ResourceError>>)
    ensures r.Returned? && r.value.Err? ==>
      fetch(album.id).Err? && r.value.error == AlbumError(artistId, album.id, Some(album.title), fetch(album.id).error)
    ensures r.Returned? && r.value.Ok? ==> fetch(album.id).Ok?
    ensures fetch(album.id).Err? ==> r == Returned(Err(AlbumError(artistId, album.id, Some(album.title), fetch(album.id).error)))
    ensures fetch(album.id).Ok? ==>
      var image := ImageFromCoverArtResponse(fetch(album.id).value, parse);
      && (r.Returned? <==> image.Returned?)
      && (r.Returned? ==> r.value == Ok(WithImage(album, image.value)))
  {
    match fetch(album.id)
    case Ok(payload) =>
      var image :- ImageFromCoverArtResponse(payload, parse);
      Returned(Ok(WithImage(album, image)))
    case Err(err) =>
      Returned(Err(AlbumError(artistId, album.id, Some(album.title), err)))
  }

  /** `unwrap_or_else(|err| AlbumReference::from(err))`: what the merge keeps of
      one received result. */
  function Settle(received: Result<AlbumReference, ResourceError>): (r: AlbumReference)
    requires received.Err? ==> received.error.AlbumError?
    ensures received.Ok? ==> r == received.value
    ensures received.Err? ==> r.error && r.image == None && r.id == received.error.albumId
    ensures received.Err? ==> r.title == received.error.albumTitle.UnwrapOr("")
  {
    match received
    case Ok(album) => album
    case Err(err) => PlaceholderFrom(err)
  }

  /** One channel per album, in album order: what each thread will send. */
  function Spawn(artistId: string, albums: seq<AlbumReference>, fetch: Fetch, parse: Parser)
    : (r: seq<Outcome<Result<AlbumReference, ResourceError>>>)
    ensures |r| == |albums|
    ensures forall i :: 0 <= i < |albums| ==> r[i] == Worker(artistId, albums[i], fetch, parse)
  {
    seq(|albums|, i requires 0 <= i < |albums| => Worker(artistId, albums[i], fetch, parse))
  }

  /** Every error a channel carries is an album error (so the merge never
      reaches the `unreachable!()` of the placeholder conversion). */
  ghost predicate AlbumScoped(channels: seq<Outcome<Result<AlbumReference, ResourceError>>>) {
    forall i :: 0 <= i < |channels| && channels[i].Returned? && channels[i].value.Err? ==>
      channels[i].value.error.AlbumError?
  }

  /** The merge: receive from each channel in spawn order and settle what
      arrives; the first channel whose thread panicked makes the merge panic. */
  function Merge(channels: seq<Outcome<Result<AlbumReference, ResourceError>>>): (r: Outcome<seq<AlbumReference>>)
    requires AlbumScoped(channels)
    ensures r.Returned? ==> |r.value| == |channels|
    ensures |channels| > 0 && channels[0].Panicked? ==> r.Panicked?
  {
    if |channels| == 0 then Returned([])
    else
      var first :- channels[0];
      var rest :- Merge(channels[1..]);
      Returned([Settle(first)] + rest)
  }

  /** The merge returns exactly when no thread panicked, and then holds one
      settled result per channel, in channel order. */
  lemma {:induction false} MergeInOrder(channels: seq<Outcome<Result<AlbumReference, ResourceError>>>)
    requires AlbumScoped(channels)
    ensures Merge(channels).Returned? <==> forall i :: 0 <= i < |channels| ==> channels[i].Returned?
    ensures Merge(channels).Returned? ==>
      && |Merge(channels).value| == |channels|
      && forall i :: 0 <= i < |channels| ==> Merge(channels).value[i] == Settle(channels[i].value)
  {
    if |channels| > 0 {
      var rest := channels[1..];
      assert AlbumScoped(rest) by {
        forall i | 0 <= i < |rest| ensures rest[i] == channels[i + 1] { }
      }
      MergeInOrder(rest);
      assert forall i :: 1 <= i < |channels| ==> channels[i] == rest[i - 1];
    }
  }

  /** The result of `query_cover_art`. */
  function FanOut(artistId: string, albums: seq<AlbumReference>, fetch: Fetch, parse: Parser): (r: Outcome<seq<AlbumReference>>)
    ensures r.Returned? ==> |r.value| == |albums|
  {
    MergeInOrder(Spawn(artistId, albums, fetch, parse));
    Merge(Spawn(artistId, albums, fetch, parse))
  }

  /** `query_cover_art`: spawn one worker per album, then receive their results
      in spawn order, replacing each failed album by its placeholder. */
  method QueryCoverArt(artistId: string, albums: seq<AlbumReference>, fetch: Fetch, parse: Parser)
    returns (r: Outcome<seq<AlbumReference>>)
    ensures r == FanOut(artistId, albums, fetch, parse)
  {
    var channels := SpawnWorkers(artistId, albums, fetch, parse);
    r := ReceiveInOrder(channels);
  }

  /** The first loop of `query_cover_art`: one worker and one channel per album,
      collected in album order. */
  method SpawnWorkers(artistId: string, albums: seq<AlbumReference>, fetch: Fetch, parse: Parser)
    returns (channels: seq<Outcome<Result<AlbumReference, ResourceError>>>)
    ensures channels == Spawn(artistId, albums, fetch, parse)
  {
    channels := [];
    var i := 0;
    while i < |albums|
      invariant 0 <= i <= |albums|
      invariant |channels| == i
      invariant forall k :: 0 <= k < i ==> channels[k] == Worker(artistId, albums[k], fetch, parse)
    {
      channels := channels + [Worker(artistId, albums[i], fetch, parse)];
      i := i + 1;
    }
  }

  /** The second loop of `query_cover_art`: receive from each channel in turn,
      keeping the album or substituting the placeholder. */
  method ReceiveInOrder(channels: seq<Outcome<Result<AlbumReference, ResourceError>>>)
    returns (r: Outcome<seq<AlbumReference>>)
    requires AlbumScoped(channels)
    ensures r == Merge(channels)
  {
    var updated: seq<AlbumReference> := [];
    var k := 0;
    while k < |channels|
      invariant 0 <= k <= |channels|
      invariant forall m :: 0 <= m < k ==> channels[m].Returned?
      invariant |updated| == k
      invariant forall m :: 0 <= m < k ==> updated[m] == Settle(channels[m].value)
    {
      var item := channels[k];
      if item.Panicked? {
        // the receive finds the sender gone and its unwrap panics
        MergeInOrder(channels);
        return Panicked;
      }
      updated := updated + [Settle(item.value)];
      k := k + 1;
    }
    MergeInOrder(channels);
    assert Merge(channels).value == updated;
    r := Returned(updated);
  }

  /** The fan-out panics exactly when some album's fetch succeeded with a
      payload that yields no front image; otherwise it returns one album per
      input album, in input order, with the same id and title. */
  lemma {:induction false} FanOutPreservesOrder(artistId: string, albums: seq<AlbumReference>, fetch: Fetch, parse: Parser)
    ensures var r := FanOut(artistId, albums, fetch, parse);
      && (r.Panicked? <==> exists i :: 0 <= i < |albums| && fetch(albums[i].id).Ok?
                                      && ImageFromCoverArtResponse(fetch(albums[i].id).value, parse).Panicked?)
      && (r.Returned? ==>
            && |r.value| == |albums|
            && forall i :: 0 <= i < |albums| ==> r.value[i].id == albums[i].id && r.value[i].title == albums[i].title)
  {
    var channels := Spawn(artistId, albums, fetch, parse);
    MergeInOrder(channels);
    var r := Merge(channels);
    if r.Returned? {
      forall i | 0 <= i < |albums| ensures r.value[i].id == albums[i].id && r.value[i].title == albums[i].title {
        assert channels[i] == Worker(artistId, albums[i], fetch, parse);
      }
    }
  }

  /** An album whose fetch succeeded comes back as itself with the front image
      of its payload attached. */
  lemma {:induction false} FanOutAttachesImage(artistId: string, albums: seq<AlbumReference>, fetch: Fetch, parse: Parser, i: nat)
    requires i < |albums| && fetch(albums[i].id).Ok?
    ensures FanOut(artistId, albums, fetch, parse).Returned? ==>
      var image := ImageFromCoverArtResponse(fetch(albums[i].id).value, parse);
      && image.Returned?
      && FanOut(artistId, albums, fetch, parse).value[i] == WithImage(albums[i], image.value)
  {
    var channels := Spawn(artistId, albums, fetch, parse);
    MergeInOrder(channels);
    assert channels[i] == Worker(artistId, albums[i], fetch, parse);
  }

  /** An album whose fetch failed comes back as a placeholder with its id and
      title, no image and the error flag. */
  lemma {:induction false} FanOutSubstitutesPlaceholder(artistId: string, albums: seq<AlbumReference>, fetch: Fetch, parse: Parser, i: nat)
    requires i < |albums| && fetch(albums[i].id).Err?
    ensures FanOut(artistId, albums, fetch, parse).Returned? ==>
      FanOut(artistId, albums, fetch, parse).value[i] == AlbumReference(albums[i].id, albums[i].title, None, true)
  {
    var channels := Spawn(artistId, albums, fetch, parse);
    MergeInOrder(channels);
    assert channels[i] == Worker(artistId, albums[i], fetch, parse);
  }

  /** No album is affected by another album's lookup: two fetch capabilities
      that agree on album `i` give the same album `i`. */
  lemma {:induction false} FanOutIsLocal(artistId: string, albums: seq<AlbumReference>, f1: Fetch, f2: Fetch, parse: Parser, i: nat)
    requires i < |albums| && f1(albums[i].id) == f2(albums[i].id)
    ensures FanOut(artistId, albums, f1, parse).Returned? && FanOut(artistId, albums, f2, parse).Returned? ==>
      FanOut(artistId, albums, f1, parse).value[i] == FanOut(artistId, albums, f2, parse).value[i]
  {
    MergeInOrder(Spawn(artistId, albums, f1, parse));
    MergeInOrder(Spawn(artistId, albums, f2, parse));
    assert Spawn(artistId, albums, f1, parse)[i] == Worker(artistId, albums[i], f1, parse);
    assert Spawn(artistId, albums, f2, parse)[i] == Worker(artistId, albums[i], f2, parse);
  }

  /** When every fetch succeeds, every album comes back with an image and with
      its error flag as it was. */
  lemma {:induction false} FanOutAllFetched(artistId: string, albums: seq<AlbumReference>, fetch: Fetch, parse: Parser)
    requires forall i :: 0 <= i < |albums| ==> fetch(albums[i].id).Ok?
    ensures var r := FanOut(artistId, albums, fetch, parse);
      r.Returned? ==> forall i :: 0 <= i < |albums| ==> r.value[i].image.Some? && r.value[i].error == albums[i].error
  {
    var r := FanOut(artistId, albums, fetch, parse);
    if r.Returned? {
      forall i | 0 <= i < |albums|
        ensures r.value[i].image.Some? && r.value[i].error == albums[i].error
      {
        FanOutAttachesImage(artistId, albums, fetch, parse, i);
      }
    }
  }

  /** One worker's settled result does not depend on the artist id. */
  lemma WorkerIgnoresArtistId(a1: string, a2: string, album: AlbumReference, fetch: Fetch, parse: Parser)
    ensures Worker(a1, album, fetch, parse).Returned? == Worker(a2, album, fetch, parse).Returned?
    ensures Worker(a1, album, fetch, parse).Returned? ==>
      Settle(Worker(a1, album, fetch, parse).value) == Settle(Worker(a2, album, fetch, parse).value)
  {
  }

  /** The artist id handed to the fan-out reaches only the album errors, which
      the placeholder drops: the fan-out's result does not depend on it. */
  lemma {:induction false} FanOutIgnoresArtistId(a1: string, a2: string, albums: seq<AlbumReference>, fetch: Fetch, parse: Parser)
    ensures FanOut(a1, albums, fetch, parse) == FanOut(a2, albums, fetch, parse)
  {
    var c1, c2 := Spawn(a1, albums, fetch, parse), Spawn(a2, albums, fetch, parse);
    forall i | 0 <= i < |albums|
      ensures c1[i].Returned? == c2[i].Returned?
      ensures c1[i].Returned? ==> Settle(c1[i].value) == Settle(c2[i].value)
    {
      WorkerIgnoresArtistId(a1, a2, albums[i], fetch, parse);
    }
    MergeInOrder(c1);
    MergeInOrder(c2);
    var r1, r2 := Merge(c1), Merge(c2);
    assert r1.Returned? <==> r2.Returned?;
    if r1.Returned? {
      assert r1.value == r2.value;
    }
  }

}
