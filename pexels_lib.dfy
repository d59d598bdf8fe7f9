/** The server-side media helper (`getPexelsVideo`): one video search whose
    every failure becomes `null`. The search service is an oracle. */
module PexelsLib {
  import opened Common
  import opened StockMedia

  datatype VideoSearch = VideoSearch(query: string, orientation: string)

  /** The upstream answer: parsed data, a non-ok response, or an exception. */
  datatype Reply = Found(data: SearchData) | NotOk | Threw

  /** `getPexelsVideo(query, orientation)`; `key` is `PEXELS_API_KEY` and
      `None` in the result stands for `null` (and for a file without a
      `link`). Every exception is caught, so the helper always returns: a
      missing `video_files` list, and an empty one, end in the `TypeError`
      the `catch` turns into `null`. */
  function GetPexelsVideo(query: string, orientation: Option<string>, key: Option<string>,
                          search: VideoSearch -> Reply): (link: Option<string>)
    ensures !Truthy(key) ==> link.None?
    ensures Truthy(key) ==>
      var s := VideoSearch(query, if orientation.Some? then orientation.value else "landscape");
      match search(s)
      case NotOk => link.None?
      case Threw => link.None?
      case Found(data) =>
        && (data.videos.None? || data.videos.value == [] ==> link.None?)
        && (data.videos.Some? && data.videos.value != [] && data.videos.value[0].files.None? ==> link.None?)
        && (data.videos.Some? && data.videos.value != [] && data.videos.value[0].files.Some? ==>
              var files := data.videos.value[0].files.value;
              && (files == [] ==> link.None?)
              && (files != [] && (forall k :: 0 <= k < |files| ==> files[k].quality != "hd") ==>
                    link == files[0].link)
              && ((exists k :: 0 <= k < |files| && files[k].quality == "hd") ==>
                    exists j :: 0 <= j < |files| && files[j].quality == "hd" && link == files[j].link
                      && forall k :: 0 <= k < j ==> files[k].quality != "hd"))
  {
    if !Truthy(key) then None
    else
      var s := VideoSearch(query, if orientation.Some? then orientation.value else "landscape");
      match search(s)
      case NotOk => None
      case Threw => None
      case Found(data) =>
        if data.videos.None? || data.videos.value == [] then None
        else match data.videos.value[0].files
          case None => None
          case Some(files) =>
            match BestFile(files)
            case None => None
            case Some(f) => f.link
  }
}
