/** The error taxonomy of the mashup (mashup/src/errors.rs): a transport failure
    tagged with the resource it concerned, and the two resource-level errors that
    wrap it, with their `Display`, `description` and `cause` behaviour. */
module Errors {
  import opened Wrappers

  /** The underlying `hyper::Error`, known only by its textual rendering. */
  datatype Cause = Cause(rendering: string)

  /** `TypedIOError`: the URL or path that was attempted and why it failed. */
  datatype TypedIOError = TypedIOError(resource: string, cause: Cause)

  /** `ResourceError`: an album-level or an artist-level failure. Both variants
      carry the transport failure that caused them in `cause`. */
  datatype ResourceError =
    | AlbumError(artistId: string, albumId: string, albumTitle: Option<string>, cause: TypedIOError)
    | ArtistError(artistId: string, cause: TypedIOError)

  /** `From<ResourceError> for TypedIOError`: the narrowing that keeps only the
      inner transport failure, whichever the variant. */
  function NarrowToTypedIOError(err: ResourceError): (r: TypedIOError)
    ensures err.AlbumError? ==> r == err.cause
    ensures err.ArtistError? ==> r == err.cause
  {
    match err
    case ArtistError(_, cause) => cause
    case AlbumError(_, _, _, cause) => cause
  }

  /** The narrowing forgets which level failed: an album error and an artist
      error over the same transport failure narrow to the same value. */
  lemma NarrowingForgetsLevel(artistId: string, albumId: string, title: Option<string>, t: TypedIOError)
    ensures NarrowToTypedIOError(AlbumError(artistId, albumId, title, t))
         == NarrowToTypedIOError(ArtistError(artistId, t))
  {
  }

  const TypedIOErrorPrefix := "Underlying IO Error when accessing "

  /** `Display for TypedIOError`. */
  function TypedIOErrorText(e: TypedIOError): (r: string)
    ensures |r| == |TypedIOErrorPrefix| + |e.resource| + 2 + |e.cause.rendering|
    ensures r[..|TypedIOErrorPrefix|] == TypedIOErrorPrefix
    ensures r[|TypedIOErrorPrefix|..|TypedIOErrorPrefix| + |e.resource|] == e.resource
    ensures r[|r| - |e.cause.rendering| - 2..] == ": " + e.cause.rendering
  {
    TypedIOErrorPrefix + e.resource + ": " + e.cause.rendering
  }

  const AlbumErrorPrefix := "AlbumError for id="
  const ArtistErrorPrefix := "ArtistError for id="

  /** `Display for ResourceError`. An album error shows the artist id and the
      album id joined by '-'; the album title is never shown. */
  function ResourceErrorText(err: ResourceError): (r: string)
    ensures err.AlbumError? ==>
      var ids := err.artistId + "-" + err.albumId;
      && |r| == |AlbumErrorPrefix| + |ids| + 2 + |TypedIOErrorText(err.cause)|
      && r[..|AlbumErrorPrefix|] == AlbumErrorPrefix
      && r[|AlbumErrorPrefix|..|AlbumErrorPrefix| + |ids|] == ids
      && r[|AlbumErrorPrefix| + |ids|..] == ": " + TypedIOErrorText(err.cause)
    ensures err.ArtistError? ==>
      && |r| == |ArtistErrorPrefix| + |err.artistId| + 2 + |TypedIOErrorText(err.cause)|
      && r[..|ArtistErrorPrefix|] == ArtistErrorPrefix
      && r[|ArtistErrorPrefix|..|ArtistErrorPrefix| + |err.artistId|] == err.artistId
      && r[|ArtistErrorPrefix| + |err.artistId|..] == ": " + TypedIOErrorText(err.cause)
  {
    match err
    case AlbumError(artistId, albumId, _, cause) =>
      var ids, tail := artistId + "-" + albumId, ": " + TypedIOErrorText(cause);
      SplitsInThree(AlbumErrorPrefix, ids, tail);
      AlbumErrorPrefix + ids + tail
    case ArtistError(artistId, cause) =>
      var tail := ": " + TypedIOErrorText(cause);
      SplitsInThree(ArtistErrorPrefix, artistId, tail);
      ArtistErrorPrefix + artistId + tail
  }

  /** A three-part concatenation can be cut back into its parts. */
  lemma SplitsInThree(a: string, b: string, c: string)
    ensures |a + b + c| == |a| + |b| + |c|
    ensures (a + b + c)[..|a|] == a
    ensures (a + b + c)[|a|..|a| + |b|] == b
    ensures (a + b + c)[|a| + |b|..] == c
  {
  }

  /** The album title carried by an album error does not reach its rendering. */
  lemma AlbumErrorTextIgnoresTitle(artistId: string, albumId: string, t1: Option<string>, t2: Option<string>, cause: TypedIOError)
    ensures ResourceErrorText(AlbumError(artistId, albumId, t1, cause))
         == ResourceErrorText(AlbumError(artistId, albumId, t2, cause))
  {
  }

  /** The rendering tells the two levels apart: no album error renders like an
      artist error. */
  lemma {:induction false} TextDistinguishesLevels(a: ResourceError, b: ResourceError)
    requires a.AlbumError? && b.ArtistError?
    ensures ResourceErrorText(a) != ResourceErrorText(b)
  {
    var ra, rb := ResourceErrorText(a), ResourceErrorText(b);
    // "AlbumError..." and "ArtistError..." differ at their second character
    assert ra[1] == AlbumErrorPrefix[1] && rb[1] == ArtistErrorPrefix[1];
  }

  /** `description` of a `TypedIOError` (its misspelling is the source's). */
  function TypedIOErrorDescription(e: TypedIOError): (r: string)
    ensures r == "Underyling IO Error"
  {
    "Underyling IO Error"
  }

  /** `description` of a `ResourceError`: a fixed string per variant. */
  function ResourceErrorDescription(err: ResourceError): (r: string)
    ensures err.AlbumError? ==> r == "Error while parsing Album"
    ensures err.ArtistError? ==> r == "Error while parsing Artist"
  {
    match err
    case AlbumError(_, _, _, _) => "Error while parsing Album"
    case ArtistError(_, _) => "Error while parsing Artist"
  }

  /** Two resource errors have the same description exactly when they are of the
      same variant: no field of either reaches the description. */
  lemma DescriptionIdentifiesVariant(a: ResourceError, b: ResourceError)
    ensures ResourceErrorDescription(a) == ResourceErrorDescription(b) <==> a.AlbumError? == b.AlbumError?
  {
    if a.AlbumError? != b.AlbumError? {
      assert ResourceErrorDescription(a)[21] != ResourceErrorDescription(b)[21];
    }
  }

  /** `cause` of a `TypedIOError`: always present, the wrapped transport error. */
  function TypedIOErrorCause(e: TypedIOError): (r: Option<Cause>)
    ensures r.Some? && r.value == e.cause
  {
    Some(e.cause)
  }

  /** `cause` of a `ResourceError`: always present, and it is exactly what the
      narrowing conversion yields. */
  function ResourceErrorCause(err: ResourceError): (r: Option<TypedIOError>)
    ensures r.Some? && r.value == NarrowToTypedIOError(err)
  {
    match err
    case AlbumError(_, _, _, cause) => Some(cause)
    case ArtistError(_, cause) => Some(cause)
  }
}
