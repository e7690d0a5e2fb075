/** The resource accessors of the mashup (mashup/src/main.rs): the two providers
    and their URL and cache-file templates, the HTTP status filter, the network
    read, and the write-once file store. The network and the disk are values
    handed in: `Http` answers a GET for a URL, a `map` from path to content is the
    disk. */
module Resources {
  import opened Wrappers
  import opened Errors

  newtype u16 = x: int | 0 <= x < 0x1_0000

  const MusicbrainzUrlPrefix := "http://musicbrainz.org/ws/2/artist/"
  const MusicbrainzUrlQuery := "?&fmt=json&inc=url-rels+release-groups"
  const CoverArtUrlPrefix := "http://coverartarchive.org/release-group/"

  /** `musicbrainz_url!`: the artist lookup, asking for JSON with the URL
      relations and the release groups. */
  function MusicbrainzUrl(id: string): string {
    MusicbrainzUrlPrefix + id + MusicbrainzUrlQuery
  }

  /** The artist lookup URL is the service's artist path, the id, then the
      query; the id can be read back from it. */
  lemma MusicbrainzUrlParts(id: string)
    ensures var r := MusicbrainzUrl(id);
      && |r| == |MusicbrainzUrlPrefix| + |id| + |MusicbrainzUrlQuery|
      && r[..|MusicbrainzUrlPrefix|] == MusicbrainzUrlPrefix
      && r[|MusicbrainzUrlPrefix|..|MusicbrainzUrlPrefix| + |id|] == id
      && r[|MusicbrainzUrlPrefix| + |id|..] == MusicbrainzUrlQuery
  {
    SplitsInThree(MusicbrainzUrlPrefix, id, MusicbrainzUrlQuery);
  }

  /** `cover_art_url!`: the release group's cover-art listing. */
  function CoverArtUrl(id: string): string {
    CoverArtUrlPrefix + id
  }

  /** The cover-art URL is the archive's release-group path followed by the
      id. */
  lemma CoverArtUrlParts(id: string)
    ensures var r := CoverArtUrl(id);
      && |r| == |CoverArtUrlPrefix| + |id|
      && r[..|CoverArtUrlPrefix|] == CoverArtUrlPrefix
      && r[|CoverArtUrlPrefix|..] == id
  {
  }

  /** `musicbrainz_file!`: the cached artist metadata. */
  function MusicbrainzFile(id: string): string {
    "mb_" + id + ".json"
  }

  /** `cover_art_file!`: the cached cover-art listing. */
  function CoverArtFile(id: string): string {
    "ca_" + id + ".json"
  }

  datatype Provider = Musicbrainz | CoverArt

  /** `Provider::format_file_name`: the cache file of a resource, by provider. */
  function FormatFileName(provider: Provider, id: string): (r: string)
    ensures |r| == |id| + 8
    ensures r[..3] == (if provider.Musicbrainz? then "mb_" else "ca_")
    ensures r[3..3 + |id|] == id
    ensures r[3 + |id|..] == ".json"
  {
    match provider
    case Musicbrainz => MusicbrainzFile(id)
    case CoverArt => CoverArtFile(id)
  }

  /** Cache file names never collide: the name determines both the provider and
      the resource id. */
  lemma {:induction false} FileNamesAreDistinct(p: Provider, a: string, q: Provider, b: string)
    requires FormatFileName(p, a) == FormatFileName(q, b)
    ensures p == q && a == b
  {
    var n := FormatFileName(p, a);
    assert |a| == |b|;
    assert a == n[3..3 + |a|] == b;
  }

  /** The provider's store: `Provider::fs`. Both providers share one directory. */
  datatype SimpleFs = SimpleFs(directory: string)

  function ProviderFs(provider: Provider): (r: SimpleFs)
    ensures r.directory == "tmp"
  {
    SimpleFs("tmp")
  }

  /** Decimal rendering of a natural number, most significant digit first. */
  function DecimalText(n: nat): (r: string)
    ensures |r| >= 1
    ensures forall i :: 0 <= i < |r| ==> '0' <= r[i] <= '9'
    decreases n
  {
    var digit := ['0' + (n % 10) as char];
    if n < 10 then digit else DecimalText(n / 10) + digit
  }

  /** Reads a decimal rendering back. */
  function DecimalValue(s: string): nat
    requires forall i :: 0 <= i < |s| ==> '0' <= s[i] <= '9'
  {
    if |s| == 0 then 0
    else DecimalValue(s[..|s| - 1]) * 10 + (s[|s| - 1] - '0') as nat
  }

  lemma {:induction false} DecimalRoundTrip(n: nat)
    ensures DecimalValue(DecimalText(n)) == n
    decreases n
  {
    var t := DecimalText(n);
    if n >= 10 {
      DecimalRoundTrip(n / 10);
      assert t[..|t| - 1] == DecimalText(n / 10);
    }
  }

  const StatusCausePrefix := "Service responded with statuscode "

  /** The `hyper::Error` that `filter_successful` builds for a rejected status:
      a fixed message followed by the status code in decimal. */
  function StatusCause(status: u16): (r: Cause)
    ensures |r.rendering| > |StatusCausePrefix|
    ensures r.rendering[..|StatusCausePrefix|] == StatusCausePrefix
    ensures r.rendering[|StatusCausePrefix|..] == DecimalText(status as nat)
  {
    Cause(StatusCausePrefix + DecimalText(status as nat))
  }

  /** A rejected status is recoverable from the failure it produced. */
  lemma StatusCauseIdentifiesStatus(a: u16, b: u16)
    requires StatusCause(a) == StatusCause(b)
    ensures a == b
  {
    DecimalRoundTrip(a as nat);
    DecimalRoundTrip(b as nat);
  }

  /** `filter_successful`: the body exactly when the status is 200 OK, otherwise a
      failure tagged with the resource and encoding the status. */
  function FilterSuccessful(resource: string, status: u16, body: string): (r: Result<string, TypedIOError>)
    ensures r.Ok? <==> status == 200
    ensures r.Ok? ==> r.value == body
    ensures r.Err? ==> r.error.resource == resource && r.error.cause == StatusCause(status)
  {
    if status == 200 then Ok(body)
    else Err(TypedIOError(resource, StatusCause(status)))
  }

  /** What a GET does: a response with its status and body, or a transport
      failure (DNS, connection, timeout). */
  datatype HttpOutcome = Response(status: u16, body: string) | TransportFailure(cause: Cause)

  type Http = string -> HttpOutcome

  /** `read_resource_from_url`: a GET, then the status filter; every failure is
      tagged with the URL. */
  function ReadResourceFromUrl(http: Http, url: string): (r: Result<string, TypedIOError>)
    ensures r.Ok? <==> http(url).Response? && http(url).status == 200
    ensures r.Ok? ==> r.value == http(url).body
    ensures r.Err? ==> r.error.resource == url
    ensures http(url).TransportFailure? ==> r.error.cause == http(url).cause
    ensures http(url).Response? && r.Err? ==> r.error.cause == StatusCause(http(url).status)
  {
    match http(url)
    case TransportFailure(cause) => Err(TypedIOError(url, cause))
    case Response(status, body) => FilterSuccessful(url, status, body)
  }

  /** `Path::join` on a Unix path: an absolute name replaces the directory. */
  function JoinPath(directory: string, name: string): string {
    if |name| > 0 && name[0] == '/' then name
    else if |directory| == 0 || directory[|directory| - 1] == '/' then directory + name
    else directory + "/" + name
  }

  /** The failure of opening a file that does not exist. */
  const NotFound := Cause("No such file or directory (os error 2)")

  /** `read_resource_from_file`: the whole content, or a failure tagged with the
      path. */
  function ReadResourceFromFile(files: map<string, string>, path: string): (r: Result<string, TypedIOError>)
    ensures r.Ok? <==> path in files
    ensures r.Ok? ==> r.value == files[path]
    ensures r.Err? ==> r.error == TypedIOError(path, NotFound)
  {
    if path in files then Ok(files[path]) else Err(TypedIOError(path, NotFound))
  }

  /** `SimpleFs::read`: the file `id` inside the store's directory. */
  function SimpleFsRead(fs: SimpleFs, files: map<string, string>, id: string): (r: Result<string, TypedIOError>)
    ensures r.Ok? <==> JoinPath(fs.directory, id) in files
    ensures r.Ok? ==> r.value == files[JoinPath(fs.directory, id)]
    ensures r.Err? ==> r.error.resource == JoinPath(fs.directory, id)
  {
    ReadResourceFromFile(files, JoinPath(fs.directory, id))
  }

  /** The files on disk, as a map from path to content. */
  class Disk {
    var files: map<string, string>

    constructor (files: map<string, string>)
      ensures this.files == files
    {
      this.files := files;
    }

    /** `SimpleFs::store`: write-once. A file that exists keeps its content;
        otherwise it is created with `content`; no other path changes. */
    method Store(fs: SimpleFs, id: string, content: string)
      modifies this
      ensures var path := JoinPath(fs.directory, id);
        && (path in old(files) ==> files == old(files))
        && (path !in old(files) ==> files == old(files)[path := content])
      ensures SimpleFsRead(fs, files, id)
           == Ok(if JoinPath(fs.directory, id) in old(files) then old(files)[JoinPath(fs.directory, id)] else content)
      ensures forall p :: p != JoinPath(fs.directory, id) ==>
                (p in files <==> p in old(files)) && (p in files ==> files[p] == old(files)[p])
    {
      var path := JoinPath(fs.directory, id);
      if path !in files {
        files := files[path := content];
      }
    }
  }
}
