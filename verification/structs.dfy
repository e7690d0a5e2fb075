/** The mashup's records (mashup/src/structs.rs): the artist with its albums, the
    cover-art payload, the failure placeholder, and the decoders that build them
    from a parsed JSON document. */
module Structs {
  import opened Wrappers
  import opened Errors
  import opened JsonTree

  /** One entry of a cover-art payload. */
  datatype Image = Image(front: bool, image: string)

  /** The cover-art payload: its images, in payload order. */
  datatype CoverArtResponse = CoverArtResponse(images: seq<Image>)

  /** An album (a MusicBrainz release group), possibly enriched with an image
      URL; `error` marks a placeholder for an album whose lookup failed. */
  datatype AlbumReference = AlbumReference(id: string, title: string, image: Option<string>, error: bool)

  datatype ArtistReference = ArtistReference(name: string, albums: seq<AlbumReference>)

  /** `with_image`: attaches the image and changes nothing else. Every caller
      owns the album it updates (a clone), so the update in place is the
      returned value. */
  function WithImage(album: AlbumReference, image: string): (r: AlbumReference)
    ensures r.image == Some(image)
    ensures r.id == album.id && r.title == album.title && r.error == album.error
  {
    album.(image := Some(image))
  }

  /** `From<ResourceError> for AlbumReference`: the placeholder for an album whose
      lookup failed. Only album errors can be converted; the source marks the
      artist case `unreachable!()`. */
  function PlaceholderFrom(err: ResourceError): (r: AlbumReference)
    requires err.AlbumError?
    ensures r.id == err.albumId
    ensures r.title == (if err.albumTitle.Some? then err.albumTitle.value else "")
    ensures r.image == None && r.error
  {
    AlbumReference(err.albumId, err.albumTitle.UnwrapOr(""), None, true)
  }

  /** The placeholder keeps only the album's identity: neither the artist id nor
      the transport failure reaches it. */
  lemma PlaceholderKeepsOnlyAlbumIdentity(a: ResourceError, b: ResourceError)
    requires a.AlbumError? && b.AlbumError?
    requires a.albumId == b.albumId && a.albumTitle == b.albumTitle
    ensures PlaceholderFrom(a) == PlaceholderFrom(b)
  {
  }

  /** `Decodable for AlbumReference`: `id` then `title` from a release-group
      object; the album starts without image and without error. */
  function DecodeAlbumReference(j: Json): (r: Result<AlbumReference, DecodeError>)
    ensures r.Ok? <==> StringField(j, "id").Ok? && StringField(j, "title").Ok?
    ensures r.Ok? ==> r.value.id == j.fields["id"].s && r.value.title == j.fields["title"].s
    ensures r.Ok? ==> r.value.image == None && !r.value.error
    ensures StringField(j, "id").Err? ==> r == Err(StringField(j, "id").error)
    ensures StringField(j, "id").Ok? && StringField(j, "title").Err? ==> r == Err(StringField(j, "title").error)
  {
    var id :- StringField(j, "id");
    var title :- StringField(j, "title");
    Ok(AlbumReference(id, title, None, false))
  }

  /** The release-group object the metadata service sends for an album. */
  function ReleaseGroupJson(id: string, title: string): Json {
    JObject(map["id" := JString(id), "title" := JString(title)])
  }

  /** The artist object the metadata service sends. */
  function ArtistJson(name: string, groups: seq<Json>): Json {
    JObject(map["name" := JString(name), "release-groups" := JArray(groups)])
  }

  /** Derived `Decodable for Image`: `front` then `image`. */
  function DecodeImage(j: Json): (r: Result<Image, DecodeError>)
    ensures r.Ok? <==> BoolField(j, "front").Ok? && StringField(j, "image").Ok?
    ensures r.Ok? ==> r.value == Image(j.fields["front"].b, j.fields["image"].s)
  {
    var front :- BoolField(j, "front");
    var image :- StringField(j, "image");
    Ok(Image(front, image))
  }

  /** Derived `Decodable for CoverArtResponse`: every element of `images`. */
  function DecodeCoverArtResponse(j: Json): (r: Result<CoverArtResponse, DecodeError>)
    ensures r.Ok? <==> ArrayField(j, "images").Ok?
                       && forall i :: 0 <= i < |j.fields["images"].items| ==> DecodeImage(j.fields["images"].items[i]).Ok?
    ensures r.Ok? ==> |r.value.images| == |j.fields["images"].items|
                      && forall i :: 0 <= i < |r.value.images| ==> r.value.images[i] == DecodeImage(j.fields["images"].items[i]).value
  {
    var items :- ArrayField(j, "images");
    DecodeEachMeaning(items, DecodeImage);
    var images :- DecodeEach(items, DecodeImage);
    Ok(CoverArtResponse(images))
  }

  /** What `Decodable for ArtistReference` yields: the name, then the release
      groups at indices `0 .. len - 1` (the last one is never read), each through
      `try!`; an empty array underflows the bound. */
  function ArtistDecoding(j: Json): (r: Result<ArtistReference, DecodeError>)
    ensures r.Ok? ==> StringField(j, "name").Ok? && r.value.name == j.fields["name"].s
    ensures StringField(j, "name").Err? ==> r == Err(StringField(j, "name").error)
    ensures StringField(j, "name").Ok? && ArrayField(j, "release-groups").Err? ==>
      r == Err(ArrayField(j, "release-groups").error)
    ensures StringField(j, "name").Ok? && ArrayField(j, "release-groups") == Ok([]) ==> r == Err(LengthUnderflow)
    ensures r.Ok? ==> ArrayField(j, "release-groups").Ok? && |ArrayField(j, "release-groups").value| >= 1
  {
    var name :- StringField(j, "name");
    var groups :- ArrayField(j, "release-groups");
    if |groups| == 0 then Err(LengthUnderflow)
    else
      var albums :- DecodeEach(groups[..|groups| - 1], DecodeAlbumReference);
      Ok(ArtistReference(name, albums))
  }

  /** `Decodable for ArtistReference`, with the loop that pushes each decoded
      release group into a buffer. */
  method DecodeArtistReference(j: Json) returns (r: Result<ArtistReference, DecodeError>)
    ensures r == ArtistDecoding(j)
  {
    var name :- StringField(j, "name");
    var groups :- ArrayField(j, "release-groups");
    if |groups| == 0 {
      return Err(LengthUnderflow);
    }
    ghost var prefix := groups[..|groups| - 1];
    var buffer: seq<AlbumReference> := [];
    var idx := 0;
    while idx < |groups| - 1
      invariant 0 <= idx <= |groups| - 1
      invariant DecodeEach(prefix[..idx], DecodeAlbumReference) == Ok(buffer)
    {
      var item := DecodeAlbumReference(groups[idx]);
      if item.Err? {
        // the first failing release group aborts the whole decode
        FirstFailureWins(prefix, idx, DecodeAlbumReference);
        return Err(item.error);
      }
      DecodeEachExtend(prefix, idx, DecodeAlbumReference);
      buffer := buffer + [item.value];
      idx := idx + 1;
    }
    assert prefix[..idx] == prefix;
    r := Ok(ArtistReference(name, buffer));
  }

  /** Decoding one more element extends the decoded prefix by that element. */
  lemma DecodeEachExtend<T>(items: seq<Json>, k: nat, decode: Json -> Result<T, DecodeError>)
    requires k < |items|
    requires DecodeEach(items[..k], decode).Ok? && decode(items[k]).Ok?
    ensures DecodeEach(items[..k + 1], decode) == Ok(DecodeEach(items[..k], decode).value + [decode(items[k]).value])
  {
    assert items[..k + 1][..k] == items[..k];
  }

  /** When the elements before `k` decode and element `k` does not, decoding the
      whole array fails with element `k`'s error. */
  lemma FirstFailureWins<T>(items: seq<Json>, k: nat, decode: Json -> Result<T, DecodeError>)
    requires k < |items|
    requires DecodeEach(items[..k], decode).Ok?
    requires decode(items[k]).Err?
    ensures DecodeEach(items, decode) == Err(decode(items[k]).error)
  {
    var r := DecodeEach(items, decode);
    DecodeEachMeaning(items, decode);
    DecodeEachMeaning(items[..k], decode);
    forall m | 0 <= m < k ensures decode(items[m]).Ok? {
      assert items[..k][m] == items[m];
    }
    var w :| 0 <= w < |items| && decode(items[w]) == Err(r.error)
             && forall m :: 0 <= m < w ==> decode(items[m]).Ok?;
    assert w == k;
  }

  /** A decoded artist keeps its name and every release group but the last, in
      order, each decoded independently. */
  lemma {:induction false} ArtistDecodingKeepsAllButLast(j: Json)
    requires ArtistDecoding(j).Ok?
    ensures var groups := j.fields["release-groups"].items;
      && |groups| >= 1
      && ArtistDecoding(j).value.name == j.fields["name"].s
      && |ArtistDecoding(j).value.albums| == |groups| - 1
      && forall i :: 0 <= i < |groups| - 1 ==>
           DecodeAlbumReference(groups[i]) == Ok(ArtistDecoding(j).value.albums[i])
  {
    var groups := j.fields["release-groups"].items;
    var prefix := groups[..|groups| - 1];
    DecodeEachMeaning(prefix, DecodeAlbumReference);
    forall i | 0 <= i < |groups| - 1
      ensures DecodeAlbumReference(groups[i]) == Ok(ArtistDecoding(j).value.albums[i])
    {
      assert prefix[i] == groups[i];
    }
  }

  /** Decoding the payload built from albums `a0 .. an` yields `a0 .. a(n-1)`:
      the last release group is dropped, so the round trip holds only up to it. */
  lemma {:induction false} DecodeDropsLastReleaseGroup(name: string, albums: seq<AlbumReference>)
    requires |albums| >= 1
    requires forall i :: 0 <= i < |albums| ==> albums[i].image == None && !albums[i].error
    ensures ArtistDecoding(ArtistJson(name, seq(|albums|, i requires 0 <= i < |albums| =>
                                                  ReleaseGroupJson(albums[i].id, albums[i].title))))
         == Ok(ArtistReference(name, albums[..|albums| - 1]))
  {
    var groups := seq(|albums|, i requires 0 <= i < |albums| => ReleaseGroupJson(albums[i].id, albums[i].title));
    var j := ArtistJson(name, groups);
    assert StringField(j, "name") == Ok(name);
    assert ArrayField(j, "release-groups") == Ok(groups);
    var prefix := groups[..|groups| - 1];
    forall i | 0 <= i < |prefix| ensures DecodeAlbumReference(prefix[i]) == Ok(albums[i]) {
      assert StringField(prefix[i], "id") == Ok(albums[i].id);
      assert StringField(prefix[i], "title") == Ok(albums[i].title);
    }
    DecodeEachMeaning(prefix, DecodeAlbumReference);
    var d := DecodeEach(prefix, DecodeAlbumReference);
    assert d.value == albums[..|albums| - 1];
  }

  /** An artist payload with no release groups does not decode: the range bound
      `len - 1` underflows. */
  lemma EmptyReleaseGroupsUnderflow(name: string)
    ensures ArtistDecoding(ArtistJson(name, [])) == Err(LengthUnderflow)
  {
    assert StringField(ArtistJson(name, []), "name") == Ok(name);
  }

  /** The last release group is never looked at: replacing it, even by something
      that is not a release group at all, changes nothing. */
  lemma {:induction false} LastReleaseGroupIsIgnored(name: string, groups: seq<Json>, x: Json, y: Json)
    ensures ArtistDecoding(ArtistJson(name, groups + [x])) == ArtistDecoding(ArtistJson(name, groups + [y]))
  {
    var jx, jy := ArtistJson(name, groups + [x]), ArtistJson(name, groups + [y]);
    assert StringField(jx, "name") == StringField(jy, "name") == Ok(name);
    assert ArrayField(jx, "release-groups") == Ok(groups + [x]);
    assert ArrayField(jy, "release-groups") == Ok(groups + [y]);
    assert (groups + [x])[..|groups|] == groups == (groups + [y])[..|groups|];
  }
}
