/**
 The download endpoint as one decision: validate the posted ads, name the
 batch directory, write the metadata, dispatch one fetch per planned task,
 and reply when every fetch has resolved or one has rejected. The fetches
 themselves are an oracle: `fetched(url, fileName)` is true when that
 download's promise resolves and false when it rejects.
 */
module Download {
  import opened JsValues
  import opened Ads
  import opened BatchDir
  import opened Manifest
  import opened Planner

  /** The `ads` field of the request body: missing, some non-array value, or an array of ads. */
  datatype AdsField = Missing | NotAnArray | AdArray(items: seq<Ad>)

  datatype DownloadReply =
    | NoAdsSelected                                 // 'No ads selected for download'
    | Downloaded(message: string, batchDir: string) // success: true
    | DownloadFailed                                // 'Failed to download ads'
  {
    /** The HTTP status the reply is sent with. */
    function Status(): nat {
      match this
      case NoAdsSelected => 400
      case Downloaded(_, _) => 200
      case DownloadFailed => 500
    }
  }

  /**
   What one request leaves behind and answers: the batch directory it created,
   the metadata file it wrote into it, the fetches it dispatched, and the reply.
   */
  datatype DownloadRun = DownloadRun(
    createdDir: Option<string>,
    metadata: Option<Metadata>,
    tasks: seq<Task>,
    reply: DownloadReply)

  /** `ads` is present, an array, and not empty. */
  predicate HasAds(ads: AdsField) {
    ads.AdArray? && |ads.items| > 0
  }

  /** The success message: "Downloaded ", the count as a decimal numeral, " files". */
  function CountMessage(n: nat): (m: string)
    ensures |m| >= 18 && m[..11] == "Downloaded " && m[|m| - 6..] == " files"
    ensures Canonical(m[11..|m| - 6]) && DigitsToNat(m[11..|m| - 6]) == n
  {
    NatToStringRoundTrip(n);
    var m := "Downloaded " + NatToString(n) + " files";
    assert m[11..|m| - 6] == NatToString(n);
    m
  }

  predicate AllFetched(tasks: seq<Task>, fetched: (string, string) -> bool) {
    forall t :: t in tasks ==> fetched(t.url, t.fileName)
  }

  /**
   The handler. `dirStamp` and `downloadDate` are the two timestamps it reads
   from the clock: one for the directory name, one for the metadata.
   `existing` holds the names already present in the downloads folder: creating
   a directory whose name is taken throws, and the request fails with nothing
   created. `metadataWritable` says whether writing the metadata file succeeds;
   when it does not, the request fails and leaves the directory behind with at
   most a partial metadata file in it.
   */
  function HandleDownload(
    ads: AdsField, downloadType: Option<string>, dirStamp: string, downloadDate: string,
    existing: set<string>, metadataWritable: bool,
    fetched: (string, string) -> bool): (run: DownloadRun)
    ensures run.reply.NoAdsSelected? <==> !HasAds(ads)
    ensures run.reply.Status() == 400 <==> !HasAds(ads)
    ensures run.reply.Status() == 500 <==> HasAds(ads) && !run.reply.Downloaded?
    ensures run.createdDir.Some? <==> HasAds(ads) && BatchDirName(dirStamp) !in existing
    ensures run.createdDir.Some? ==> run.createdDir.value == BatchDirName(dirStamp)
    ensures run.metadata.Some? <==> run.createdDir.Some? && metadataWritable
    ensures run.metadata.Some? ==>
      && run.metadata.value.downloadDate == downloadDate
      && |run.metadata.value.ads| == |ads.items|
      && forall i :: 0 <= i < |ads.items| ==> run.metadata.value.ads[i] == Summarize(ads.items[i])
    ensures run.metadata.Some? ==> run.tasks == PlanTasks(ads.items, downloadType)
    ensures run.metadata.None? ==> run.tasks == []
    ensures run.reply.Downloaded? <==> run.metadata.Some? && AllFetched(run.tasks, fetched)
    ensures run.reply.Downloaded? ==>
      && run.reply.batchDir == BatchDirName(dirStamp)
      && run.reply.message == CountMessage(|run.tasks|)
  {
    if !HasAds(ads) then
      DownloadRun(None, None, [], NoAdsSelected)
    else
      var dir := BatchDirName(dirStamp);
      if dir in existing then
        DownloadRun(None, None, [], DownloadFailed)
      else if !metadataWritable then
        DownloadRun(Some(dir), None, [], DownloadFailed)
      else
        var tasks := PlanTasks(ads.items, downloadType);
        var reply := if AllFetched(tasks, fetched) then Downloaded(CountMessage(|tasks|), dir) else DownloadFailed;
        DownloadRun(Some(dir), Some(MakeMetadata(downloadDate, ads.items)), tasks, reply)
  }

  /** The reported count is the number of requested assets; with 'all', images plus videos with a URL. */
  lemma DownloadedCount(
    ads: AdsField, downloadType: Option<string>, dirStamp: string, downloadDate: string,
    existing: set<string>, metadataWritable: bool, fetched: (string, string) -> bool)
    requires HandleDownload(ads, downloadType, dirStamp, downloadDate, existing, metadataWritable, fetched).reply.Downloaded?
    ensures HandleDownload(ads, downloadType, dirStamp, downloadDate, existing, metadataWritable, fetched).reply.message
            == CountMessage(Requested(ads.items, downloadType))
    ensures downloadType == Some("all") ==>
      HandleDownload(ads, downloadType, dirStamp, downloadDate, existing, metadataWritable, fetched).reply.message
      == CountMessage(TotalPresent(ads.items, ImageAsset) + TotalPresent(ads.items, VideoAsset))
  {
    PlanCount(ads.items, downloadType);
  }

  /**
   A download type other than 'all', 'images' or 'videos' (the page also offers
   'text') fetches nothing and still succeeds, whatever the fetches would do.
   */
  lemma OtherTypeDownloadsNothing(
    ads: AdsField, downloadType: Option<string>, dirStamp: string, downloadDate: string,
    existing: set<string>, fetched: (string, string) -> bool)
    requires HasAds(ads) && BatchDirName(dirStamp) !in existing
    requires downloadType !in {Some("all"), Some("images"), Some("videos")}
    ensures HandleDownload(ads, downloadType, dirStamp, downloadDate, existing, true, fetched).reply
            == Downloaded(CountMessage(0), BatchDirName(dirStamp))
  {
    KindFilter(ads.items, downloadType);
  }

  /**
   One failed fetch fails the whole request, yet the batch directory and its
   metadata have already been written and are left in place.
   */
  lemma FailedFetchFailsBatch(
    ads: AdsField, downloadType: Option<string>, dirStamp: string, downloadDate: string,
    existing: set<string>, fetched: (string, string) -> bool, t: Task)
    requires HasAds(ads) && BatchDirName(dirStamp) !in existing
    requires t in PlanTasks(ads.items, downloadType) && !fetched(t.url, t.fileName)
    ensures HandleDownload(ads, downloadType, dirStamp, downloadDate, existing, true, fetched).reply == DownloadFailed
    ensures HandleDownload(ads, downloadType, dirStamp, downloadDate, existing, true, fetched).createdDir.Some?
    ensures HandleDownload(ads, downloadType, dirStamp, downloadDate, existing, true, fetched).metadata.Some?
  {
  }

  /**
   Two requests that read the same timestamp get the same directory name: once
   the first has created it, the second fails with 500 and creates nothing.
   Batch directories are unique only across different timestamps.
   */
  lemma SameTimestampCollides(
    first: AdsField, second: AdsField, type1: Option<string>, type2: Option<string>,
    dirStamp: string, date1: string, date2: string, existing: set<string>,
    writable1: bool, writable2: bool, fetched1: (string, string) -> bool, fetched2: (string, string) -> bool)
    requires HandleDownload(first, type1, dirStamp, date1, existing, writable1, fetched1).createdDir.Some?
    requires HasAds(second)
    ensures
      var dir := HandleDownload(first, type1, dirStamp, date1, existing, writable1, fetched1).createdDir.value;
      var run := HandleDownload(second, type2, dirStamp, date2, existing + {dir}, writable2, fetched2);
      run.reply == DownloadFailed && run.createdDir.None? && run.metadata.None?
  {
  }
}
