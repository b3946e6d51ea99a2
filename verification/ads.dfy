/**
 The ad records a client posts to the download endpoint, as returned by the
 Ad Library search: every field may be missing, the text fields that the
 Graph API returns as arrays stay arrays, and creatives carry their asset URLs.
 */
module Ads {
  import opened JsValues

  /** An entry of `ad_creative_images`: only its `url` is read. */
  datatype Image = Image(url: Option<string>)

  /** An entry of `ad_creative_videos`: only its `video_url` is read. */
  datatype Video = Video(videoUrl: Option<string>)

  /** One ad record, with the fields the download endpoint reads. */
  datatype Ad = Ad(
    id: Option<string>,
    pageName: Option<string>,
    creativeBodies: Option<seq<string>>,
    linkTitles: Option<seq<string>>,
    linkDescriptions: Option<seq<string>>,
    linkUrl: Option<string>,
    snapshotUrl: Option<string>,
    deliveryStartTime: Option<string>,
    deliveryStopTime: Option<string>,
    images: Option<seq<Image>>,
    videos: Option<seq<Video>>)

  /** The two kinds of creative asset the server downloads. */
  datatype Kind = ImageAsset | VideoAsset

  /** The text `${ad.id}` produces: a missing id is rendered as "undefined". */
  function IdText(id: Option<string>): (t: string)
    ensures id.Some? ==> t == id.value
    ensures id.None? ==> t == "undefined"
  {
    if id.Some? then id.value else "undefined"
  }

  /** The asset URLs of one kind, position for position; a missing array has no entries. */
  function AssetUrls(ad: Ad, kind: Kind): (urls: seq<Option<string>>)
    ensures kind == ImageAsset && ad.images.Some? ==>
      |urls| == |ad.images.value| && forall i :: 0 <= i < |urls| ==> urls[i] == ad.images.value[i].url
    ensures kind == VideoAsset && ad.videos.Some? ==>
      |urls| == |ad.videos.value| && forall i :: 0 <= i < |urls| ==> urls[i] == ad.videos.value[i].videoUrl
    ensures kind == ImageAsset && ad.images.None? ==> urls == []
    ensures kind == VideoAsset && ad.videos.None? ==> urls == []
  {
    match kind
    case ImageAsset =>
      if ad.images.None? then []
      else
        var xs := ad.images.value;
        seq(|xs|, i requires 0 <= i < |xs| => xs[i].url)
    case VideoAsset =>
      if ad.videos.None? then []
      else
        var xs := ad.videos.value;
        seq(|xs|, i requires 0 <= i < |xs| => xs[i].videoUrl)
  }

  /** How many entries of `urls` hold a non-empty URL. */
  function PresentCount(urls: seq<Option<string>>): nat
  {
    if urls == [] then 0 else (if Truthy(urls[0]) then 1 else 0) + PresentCount(urls[1..])
  }

  /** Over all ads, how many assets of `kind` have a non-empty URL. */
  function TotalPresent(ads: seq<Ad>, kind: Kind): nat
  {
    if ads == [] then 0 else PresentCount(AssetUrls(ads[0], kind)) + TotalPresent(ads[1..], kind)
  }
}
