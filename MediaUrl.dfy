/** The media URL helper: picks the host that serves media and joins media,
    storage and default-image paths onto it. The production flag
    (`import.meta.env.PROD`) and the configured API URL are parameters. */
module MediaUrl {
  import opened Wrappers
  import opened JsStrings
  import opened ApiConfig

  const ProductionMediaBase := "https://api.bersekolah.com"
  const LocalMediaBase := "http://localhost:8000"

  /** `u.slice(0, -4)` when `u` ends with `/api`, otherwise `u`. */
  function StripApiSuffix(u: string): (r: string)
    ensures EndsWith(u, "/api") ==> r + "/api" == u
    ensures !EndsWith(u, "/api") ==> r == u
    ensures StartsWith(u, r)
  {
    if EndsWith(u, "/api") then u[..|u| - 4] else u
  }

  /** `getMediaBaseUrl()`. */
  function MediaBaseUrl(prod: bool, configured: Option<string>): (r: string)
    // production ignores the configured URL
    ensures prod ==> r == ProductionMediaBase
    // a localhost URL loses one trailing "/api" and is otherwise kept
    ensures !prod && Includes(ApiBaseUrl(configured), "localhost") ==>
              StartsWith(ApiBaseUrl(configured), r) &&
              (if EndsWith(ApiBaseUrl(configured), "/api") then r + "/api" == ApiBaseUrl(configured)
               else r == ApiBaseUrl(configured))
    // a bersekolah.com URL without the api host is replaced by the api host
    ensures !prod && !Includes(ApiBaseUrl(configured), "localhost")
              && Includes(ApiBaseUrl(configured), "bersekolah.com")
              && !Includes(ApiBaseUrl(configured), "api.bersekolah.com") ==>
              r == ProductionMediaBase
    // an api.bersekolah.com URL loses one trailing "/api"
    ensures !prod && !Includes(ApiBaseUrl(configured), "localhost")
              && Includes(ApiBaseUrl(configured), "api.bersekolah.com") ==>
              StartsWith(ApiBaseUrl(configured), r) &&
              (if EndsWith(ApiBaseUrl(configured), "/api") then r + "/api" == ApiBaseUrl(configured)
               else r == ApiBaseUrl(configured))
    // any other URL is returned unchanged
    ensures !prod && !Includes(ApiBaseUrl(configured), "localhost")
              && !Includes(ApiBaseUrl(configured), "bersekolah.com") ==>
              r == ApiBaseUrl(configured)
  {
    if prod then ProductionMediaBase
    else
      var apiUrl := ApiBaseUrl(configured);
      if Includes(apiUrl, "localhost") then StripApiSuffix(apiUrl)
      else if Includes(apiUrl, "bersekolah.com") then
        if !Includes(apiUrl, "api.bersekolah.com") then ProductionMediaBase
        else (ApiHostIsBersekolah(apiUrl); StripApiSuffix(apiUrl))
      else (ApiHostIsBersekolah(apiUrl); apiUrl)
  }

  /** Every URL that names the api host also names bersekolah.com, so an
      api-host URL always reaches the bersekolah.com branch. */
  lemma ApiHostIsBersekolah(u: string)
    ensures Includes(u, "api.bersekolah.com") ==> Includes(u, "bersekolah.com")
  {
    if Includes(u, "api.bersekolah.com") {
      assert OccursAt("api.bersekolah.com", "bersekolah.com", 4);
      IncludesTransitive(u, "api.bersekolah.com", "bersekolah.com");
    }
  }

  /** With no usable configured URL, development serves media from the local
      API host without its "/api" path. */
  lemma DevelopmentDefaultBase(configured: Option<string>)
    requires !Truthy(configured)
    ensures MediaBaseUrl(false, configured) == LocalMediaBase
  {
    assert OccursAt(LocalApiUrl, "localhost", 7);
    assert EndsWith(LocalApiUrl, "/api");
  }

  /** The localhost test comes first: a URL naming both localhost and
      bersekolah.com is treated as a localhost URL and never replaced by the
      production host. */
  lemma LocalhostTakesPrecedence(u: string)
    requires Includes(u, "localhost") && Includes(u, "bersekolah.com")
    ensures MediaBaseUrl(false, Some(u)) == StripApiSuffix(u)
  {
    assert u != "" by { var i :| 0 <= i <= |u| - 9 && OccursAt(u, "localhost", i); }
  }

  /** `getMediaUrl(path)`: one leading "/" is dropped and "/" re-added, so the
      result is the base joined to the path by exactly the slashes the path
      does not already bring. */
  function MediaUrlOf(prod: bool, configured: Option<string>, path: string): (r: string)
    ensures StartsWith(path, "/") ==> r == MediaBaseUrl(prod, configured) + path
    ensures !StartsWith(path, "/") ==> r == MediaBaseUrl(prod, configured) + "/" + path
  {
    var cleanPath := if StartsWith(path, "/") then path[1..] else path;
    assert StartsWith(path, "/") ==> path == "/" + cleanPath;
    MediaBaseUrl(prod, configured) + "/" + cleanPath
  }

  /** A path with and without its leading slash name the same media URL. */
  lemma MediaUrlLeadingSlash(prod: bool, configured: Option<string>, p: string)
    requires !StartsWith(p, "/")
    ensures MediaUrlOf(prod, configured, "/" + p) == MediaUrlOf(prod, configured, p)
  {
    assert StartsWith("/" + p, "/");
  }

  /** `getStorageUrl(path)`: no slash is stripped. */
  function StorageUrlOf(prod: bool, configured: Option<string>, path: string): (r: string)
    ensures StartsWith(r, MediaBaseUrl(prod, configured) + "/")
    ensures r[|MediaBaseUrl(prod, configured)| + 1..] == path
  {
    MediaBaseUrl(prod, configured) + "/" + path
  }

  /** A storage URL is the media URL of the path with one more leading slash:
      `getMediaUrl` strips the slash that `getStorageUrl` keeps. */
  lemma StorageIsMediaOfSlashed(prod: bool, configured: Option<string>, path: string)
    ensures StorageUrlOf(prod, configured, path) == MediaUrlOf(prod, configured, "/" + path)
  {
    assert StartsWith("/" + path, "/");
  }

  /** Storage and media URLs agree on paths without a leading slash; on a path
      with one, the storage URL doubles the slash after the base. */
  lemma StorageUrlVersusMediaUrl(prod: bool, configured: Option<string>, path: string)
    ensures !StartsWith(path, "/") ==> StorageUrlOf(prod, configured, path) == MediaUrlOf(prod, configured, path)
    ensures StartsWith(path, "/") ==>
              StorageUrlOf(prod, configured, path) == MediaBaseUrl(prod, configured) + "//" + path[1..]
              && MediaUrlOf(prod, configured, path) == MediaBaseUrl(prod, configured) + "/" + path[1..]
  {
    if StartsWith(path, "/") {
      SlashedJoins(MediaBaseUrl(prod, configured), path);
    }
  }

  /** Joining a base to a path that starts with "/" by one more "/" doubles it. */
  lemma SlashedJoins(base: string, path: string)
    requires StartsWith(path, "/")
    ensures base + "/" + path == base + "//" + path[1..]
    ensures base + path == base + "/" + path[1..]
  {
    assert path == "/" + path[1..];
  }

  /** The kinds of default image (`getDefaultImageUrl`'s argument). */
  datatype ImageKind = Mentor | Testimoni | User | Artikel | Logo

  /** The fixed table of default image paths. */
  function DefaultPath(kind: ImageKind): (p: string)
  {
    match kind
    case Mentor => "/assets/image/defaults/mentor-default.jpg"
    case Testimoni => "/storage/defaults/testimoni-default.jpg"
    case User => "/assets/image/defaults/user-default.jpg"
    case Artikel => "/assets/image/defaults/artikel-default.jpg"
    case Logo => "/assets/image/navbar/logo.png"
  }

  /** `getDefaultImageUrl(kind)`: the base followed directly by the table entry. */
  function DefaultImageUrlOf(prod: bool, configured: Option<string>, kind: ImageKind): (r: string)
    ensures StartsWith(r, MediaBaseUrl(prod, configured))
  {
    MediaBaseUrl(prod, configured) + DefaultPath(kind)
  }

  /** Every table entry starts with "/", so a default image URL is the media
      URL of its path. */
  lemma DefaultImageIsMediaUrl(prod: bool, configured: Option<string>, kind: ImageKind)
    ensures StartsWith(DefaultPath(kind), "/")
    ensures DefaultImageUrlOf(prod, configured, kind) == MediaUrlOf(prod, configured, DefaultPath(kind))
  {
    assert DefaultPath(kind)[0] == '/';
    assert DefaultPath(kind)[..1] == "/";
  }

  /** The expected production URLs printed by the repository's test script:
      the logo, with and without its leading slash. */
  lemma ProductionLogoExample(configured: Option<string>)
    ensures MediaUrlOf(true, configured, "/assets/image/navbar/logo.png")
            == "https://api.bersekolah.com/assets/image/navbar/logo.png"
    ensures MediaUrlOf(true, configured, "assets/image/navbar/logo.png")
            == "https://api.bersekolah.com/assets/image/navbar/logo.png"
  {
    var bare := "assets/image/navbar/logo.png";
    assert bare[..1][0] == 'a';
    assert !StartsWith(bare, "/");
    MediaUrlLeadingSlash(true, configured, bare);
    assert "/" + bare == DefaultPath(Logo);
    DefaultImageIsMediaUrl(true, configured, Logo);
    ProductionDefaultLogoExample(configured);
  }

  /** The expected production storage URL of the test script. */
  lemma ProductionStorageExample(configured: Option<string>)
    ensures StorageUrlOf(true, configured, "storage/testimoni/image.jpg")
            == "https://api.bersekolah.com/storage/testimoni/image.jpg"
  {
    assert MediaBaseUrl(true, configured) == ProductionMediaBase;
  }

  /** The expected production default-logo URL of the test script. */
  lemma ProductionDefaultLogoExample(configured: Option<string>)
    ensures DefaultImageUrlOf(true, configured, Logo)
            == "https://api.bersekolah.com/assets/image/navbar/logo.png"
  {
    assert MediaBaseUrl(true, configured) == ProductionMediaBase;
    assert DefaultPath(Logo) == "/assets/image/navbar/logo.png";
  }
}
