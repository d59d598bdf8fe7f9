/** The stock-media route (`GET /api/pexels`): validates the query, asks the
    search service for one photo or one video, and answers with the chosen
    asset URL and whether one was found. The search service is an oracle. */
module PexelsRoute {
  import opened Common
  import opened StockMedia

  /** The query-string parameters; `None` is what `searchParams.get` gives
      for a missing parameter. */
  datatype MediaRequest = MediaRequest(query: Option<string>, mediaType: Option<string>, orientation: Option<string>)

  datatype Endpoint = PhotoSearch | VideoSearch

  /** The search the route sends upstream. */
  datatype SearchRequest = SearchRequest(endpoint: Endpoint, query: string, orientation: string)

  /** The upstream answer: parsed data, a non-ok status, or an exception
      (network failure or a body that does not parse). */
  datatype Reply = Found(data: SearchData) | NotOk(status: int) | Threw

  datatype MediaError = QueryRequired | KeyMissing | ApiError(status: int) | Failure

  datatype MediaResponse = Asset(url: Option<string>, found: bool) | JsonError(status: int, error: MediaError)

  /** `searchParams.get(name) || fallback`. */
  function OrDefault(p: Option<string>, fallback: string): (v: string)
    ensures Truthy(p) ==> v == p.value
    ensures !Truthy(p) ==> v == fallback
  {
    if Truthy(p) then p.value else fallback
  }

  /** The media type after its default. */
  function MediaType(req: MediaRequest): string
  {
    OrDefault(req.mediaType, "video")
  }

  /** The search for a request whose query is present: photos only for type
      `'photo'`, videos for every other type; orientation defaults to
      `'landscape'`. */
  function SearchOf(req: MediaRequest): (s: SearchRequest)
    requires Truthy(req.query)
    ensures s.endpoint == PhotoSearch <==> Truthy(req.mediaType) && req.mediaType.value == "photo"
    ensures !Truthy(req.orientation) ==> s.orientation == "landscape"
    ensures Truthy(req.orientation) ==> s.orientation == req.orientation.value
    ensures s.query == req.query.value
  {
    SearchRequest(if MediaType(req) == "photo" then PhotoSearch else VideoSearch,
                  req.query.value, OrDefault(req.orientation, "landscape"))
  }

  /** The asset URL chosen from a photo search, `None` for no results and a
      `Failure` where reading `src` would throw. */
  function PhotoAsset(data: SearchData): MediaResponse
  {
    if data.photos.None? || |data.photos.value| == 0 then Asset(None, false)
    else match data.photos.value[0].src
      case None => JsonError(500, Failure)
      case Some(sizes) =>
        var url := PhotoUrl(sizes);
        Asset(url, Truthy(url))
  }

  /** The asset URL chosen from a video search: the HD file's link, else the
      first file's; an empty or missing file list makes `.link` or `.find`
      throw. */
  function VideoAsset(data: SearchData): MediaResponse
  {
    if data.videos.None? || |data.videos.value| == 0 then Asset(None, false)
    else match data.videos.value[0].files
      case None => JsonError(500, Failure)
      case Some(files) =>
        match BestFile(files)
        case None => JsonError(500, Failure)
        case Some(f) => Asset(f.link, Truthy(f.link))
  }

  /** `GET /api/pexels`; `key` is `PEXELS_API_KEY`. */
  function Get(req: MediaRequest, key: Option<string>, search: SearchRequest -> Reply): (r: MediaResponse)
    ensures !Truthy(req.query) ==> r == JsonError(400, QueryRequired)
    ensures Truthy(req.query) && !Truthy(key) ==> r == JsonError(500, KeyMissing)
    ensures r.Asset? ==> r.found == Truthy(r.url)
    ensures r.JsonError? ==> r.status == 400 || r.status == 500
    ensures Truthy(req.query) && Truthy(key) ==>
      match search(SearchOf(req))
      case NotOk(status) => r == JsonError(500, ApiError(status))
      case Threw => r == JsonError(500, Failure)
      case Found(data) =>
        r == (if SearchOf(req).endpoint == PhotoSearch then PhotoAsset(data) else VideoAsset(data))
  {
    if !Truthy(req.query) then JsonError(400, QueryRequired)
    else if !Truthy(key) then JsonError(500, KeyMissing)
    else
      var s := SearchOf(req);
      match search(s)
      case NotOk(status) => JsonError(500, ApiError(status))
      case Threw => JsonError(500, Failure)
      case Found(data) => if s.endpoint == PhotoSearch then PhotoAsset(data) else VideoAsset(data)
  }

  /** A photo answer is the first photo's `large2x` if present, else its
      `large`. */
  lemma PhotoPrefersLarge2x(data: SearchData, sizes: PhotoSizes)
    requires data.photos.Some? && |data.photos.value| > 0 && data.photos.value[0].src == Some(sizes)
    ensures PhotoAsset(data).Asset?
    ensures Truthy(sizes.large2x) ==> PhotoAsset(data) == Asset(sizes.large2x, true)
    ensures !Truthy(sizes.large2x) ==> PhotoAsset(data).url == sizes.large
  {
  }

  /** A video answer is the link of the first HD file if there is one, else
      of the first file. */
  lemma VideoPrefersHd(data: SearchData, files: seq<VideoFile>)
    requires data.videos.Some? && |data.videos.value| > 0 && data.videos.value[0].files == Some(files)
    requires files != []
    ensures VideoAsset(data).Asset?
    ensures (exists k :: 0 <= k < |files| && files[k].quality == "hd") ==>
      exists j :: 0 <= j < |files| && files[j].quality == "hd" && VideoAsset(data).url == files[j].link
        && forall k :: 0 <= k < j ==> files[k].quality != "hd"
    ensures (forall k :: 0 <= k < |files| ==> files[k].quality != "hd") ==> VideoAsset(data).url == files[0].link
  {
  }

  /** No results means no URL and `found` false. */
  lemma NoResultNoUrl(req: MediaRequest, key: Option<string>, search: SearchRequest -> Reply, data: SearchData)
    requires Truthy(req.query) && Truthy(key) && search(SearchOf(req)) == Found(data)
    requires data.photos.None? || |data.photos.value| == 0
    requires data.videos.None? || |data.videos.value| == 0
    ensures Get(req, key, search) == Asset(None, false)
  {
  }

  /** A video result whose file list is empty is answered with a 500: the
      selection yields `undefined` and reading its `link` throws. */
  lemma EmptyFileListFails(req: MediaRequest, key: Option<string>, search: SearchRequest -> Reply, data: SearchData)
    requires Truthy(req.query) && Truthy(key) && search(SearchOf(req)) == Found(data)
    requires SearchOf(req).endpoint == VideoSearch
    requires data.videos.Some? && |data.videos.value| > 0 && data.videos.value[0].files == Some([])
    ensures Get(req, key, search) == JsonError(500, Failure)
  {
  }
}
