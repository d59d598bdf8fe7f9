/** The shape of a stock-media search result and the selection rules shared
    by the media route and the media helper: the first file of quality
    `'hd'`, else the first file; a photo's `large2x` size, else `large`. */
module StockMedia {
  import opened Common

  datatype VideoFile = VideoFile(quality: string, link: Option<string>)

  /** `files` is `None` when `video_files` is missing. */
  datatype Video = Video(files: Option<seq<VideoFile>>)

  datatype PhotoSizes = PhotoSizes(large2x: Option<string>, large: Option<string>)

  /** `src` is `None` when the photo carries no `src` object. */
  datatype Photo = Photo(src: Option<PhotoSizes>)

  /** The parsed search response; a list is `None` when its key is missing. */
  datatype SearchData = SearchData(photos: Option<seq<Photo>>, videos: Option<seq<Video>>)

  /** `files.find(f => f.quality === 'hd')`: the index of the first HD file. */
  function FindHd(files: seq<VideoFile>): (r: Option<nat>)
    ensures r.Some? ==> r.value < |files| && files[r.value].quality == "hd"
    ensures r.Some? ==> forall k :: 0 <= k < r.value ==> files[k].quality != "hd"
    ensures r.None? ==> forall k :: 0 <= k < |files| ==> files[k].quality != "hd"
  {
    if files == [] then None
    else if files[0].quality == "hd" then Some(0)
    else
      var r := FindHd(files[1..]);
      assert forall k :: 1 <= k < |files| ==> files[k] == files[1..][k - 1];
      if r.Some? then Some(r.value + 1) else None
  }

  /** `files.find(f => f.quality === 'hd') || files[0]`; `None` stands for
      `undefined`, which is what an empty list yields. */
  function BestFile(files: seq<VideoFile>): (r: Option<VideoFile>)
    ensures r.None? <==> files == []
    ensures (exists k :: 0 <= k < |files| && files[k].quality == "hd") ==>
      r.Some? && r.value.quality == "hd"
      && exists j :: 0 <= j < |files| && files[j] == r.value
           && forall k :: 0 <= k < j ==> files[k].quality != "hd"
    ensures files != [] && (forall k :: 0 <= k < |files| ==> files[k].quality != "hd") ==>
      r == Some(files[0])
  {
    var hd := FindHd(files);
    if hd.Some? then Some(files[hd.value])
    else if files != [] then Some(files[0])
    else None
  }

  /** `src.large2x || src.large` for the sizes of one photo. */
  function PhotoUrl(sizes: PhotoSizes): (url: Option<string>)
    ensures Truthy(sizes.large2x) ==> url == sizes.large2x
    ensures !Truthy(sizes.large2x) ==> url == sizes.large
  {
    if Truthy(sizes.large2x) then sizes.large2x else sizes.large
  }
}
