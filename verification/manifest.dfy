/**
 The metadata file written into every batch directory: the download date and
 one summary per ad, in the order the ads were posted.
 */
module Manifest {
  import opened JsValues
  import opened Ads

  /** The summary of one ad; a field is `None` where the JSON value would be `undefined`. */
  datatype Summary = Summary(
    id: Option<string>,
    pageName: Option<string>,
    adCreativeBody: Option<string>,
    adCreativeLinkTitle: Option<string>,
    adCreativeLinkDescription: Option<string>,
    adCreativeLinkUrl: Option<string>,
    adSnapshotUrl: Option<string>,
    adDeliveryStartTime: Option<string>,
    adDeliveryStopTime: Option<string>)

  datatype Metadata = Metadata(downloadDate: string, ads: seq<Summary>)

  /** `xs?.[0]`: the first element, absent when the array is missing or empty. */
  function First(xs: Option<seq<string>>): (r: Option<string>)
    ensures r.Some? <==> xs.Some? && |xs.value| > 0
    ensures r.Some? ==> r.value == xs.value[0]
  {
    match xs
    case None => None
    case Some(s) => if |s| == 0 then None else Some(s[0])
  }

  /** The summary of `ad`: array fields reduced to their first element, the rest copied. */
  function Summarize(ad: Ad): (s: Summary)
    ensures s.adCreativeBody == First(ad.creativeBodies)
    ensures s.adCreativeLinkTitle == First(ad.linkTitles)
    ensures s.adCreativeLinkDescription == First(ad.linkDescriptions)
    ensures s.id == ad.id && s.pageName == ad.pageName
    ensures s.adCreativeLinkUrl == ad.linkUrl && s.adSnapshotUrl == ad.snapshotUrl
    ensures s.adDeliveryStartTime == ad.deliveryStartTime && s.adDeliveryStopTime == ad.deliveryStopTime
  {
    Summary(
      ad.id, ad.pageName,
      First(ad.creativeBodies), First(ad.linkTitles), First(ad.linkDescriptions),
      ad.linkUrl, ad.snapshotUrl, ad.deliveryStartTime, ad.deliveryStopTime)
  }

  /** One summary per ad, in input order. */
  function Summaries(ads: seq<Ad>): (r: seq<Summary>)
    ensures |r| == |ads|
    ensures forall i :: 0 <= i < |ads| ==> r[i] == Summarize(ads[i])
  {
    if ads == [] then [] else [Summarize(ads[0])] + Summaries(ads[1..])
  }

  /** The metadata file's content: the download date and the summary of every ad, in order. */
  function MakeMetadata(downloadDate: string, ads: seq<Ad>): (m: Metadata)
    ensures m.downloadDate == downloadDate
    ensures |m.ads| == |ads|
    ensures forall i :: 0 <= i < |ads| ==> m.ads[i] == Summarize(ads[i])
  {
    Metadata(downloadDate, Summaries(ads))
  }
}
