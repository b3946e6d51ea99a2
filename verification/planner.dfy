/**
 The download plan: which assets of the posted ads are fetched, under which
 file names, and in which order. `PlanTasks` is the reference definition;
 `EnumerateTasks` is the handler's nested loop, proved to build the same list.
 */
module Planner {
  import opened JsValues
  import opened Ads
  import opened FileNames

  /**
   One asset to fetch: its source URL and the file name it is written to.
   `ad` and `index` record where it came from (the ad's position in the
   request and the entry's position in that ad's array), so that the order
   of the plan can be stated.
   */
  datatype Task = Task(url: string, fileName: string, kind: Kind, ad: nat, index: nat)

  /** `downloadType === 'all'`, or the kind's own value 'images' / 'videos'. */
  function Wants(downloadType: Option<string>, kind: Kind): (b: bool)
    ensures downloadType == Some("all") ==> b
    ensures downloadType == Some("images") ==> (b <==> kind == ImageAsset)
    ensures downloadType == Some("videos") ==> (b <==> kind == VideoAsset)
    ensures downloadType !in {Some("all"), Some("images"), Some("videos")} ==> !b
  {
    || downloadType == Some("all")
    || (kind == ImageAsset && downloadType == Some("images"))
    || (kind == VideoAsset && downloadType == Some("videos"))
  }

  function AssetTask(id: string, a: nat, kind: Kind, i: nat, url: string): Task {
    Task(url, FileName(id, kind, i), kind, a, i)
  }

  /** The tasks for the entries of `urls` from position `i` on; entries without a URL are skipped. */
  function KindTasksFrom(id: string, a: nat, kind: Kind, urls: seq<Option<string>>, i: nat): (r: seq<Task>)
    requires i <= |urls|
    ensures forall t :: t in r ==> t.ad == a && t.kind == kind && i <= t.index < |urls|
    decreases |urls| - i
  {
    if i == |urls| then []
    else
      (if Truthy(urls[i]) then [AssetTask(id, a, kind, i, urls[i].value)] else [])
      + KindTasksFrom(id, a, kind, urls, i + 1)
  }

  /** The tasks of one kind for the ad at position `a`, if that kind is wanted. */
  function KindTasks(ad: Ad, a: nat, kind: Kind, downloadType: Option<string>): seq<Task>
  {
    if Wants(downloadType, kind) then KindTasksFrom(IdText(ad.id), a, kind, AssetUrls(ad, kind), 0) else []
  }

  function AdTasks(ad: Ad, a: nat, downloadType: Option<string>): seq<Task>
  {
    KindTasks(ad, a, ImageAsset, downloadType) + KindTasks(ad, a, VideoAsset, downloadType)
  }

  /** The tasks for the ads from position `a` on. */
  function PlanFrom(ads: seq<Ad>, downloadType: Option<string>, a: nat): (r: seq<Task>)
    requires a <= |ads|
    ensures forall t :: t in r ==> a <= t.ad < |ads|
    decreases |ads| - a
  {
    if a == |ads| then [] else AdTasks(ads[a], a, downloadType) + PlanFrom(ads, downloadType, a + 1)
  }

  /** Every asset the request asks for, in the order the handler dispatches them. */
  function PlanTasks(ads: seq<Ad>, downloadType: Option<string>): (r: seq<Task>)
    ensures forall t :: t in r ==> t.ad < |ads|
    ensures ads == [] ==> r == []
  {
    PlanFrom(ads, downloadType, 0)
  }

  // ---------------------------------------------------------------------------
  // The handler's loops

  lemma ConcatAssociative(x: seq<Task>, y: seq<Task>, z: seq<Task>)
    ensures (x + y) + z == x + (y + z)
  {
  }

  /** Appending the tasks of entry `i` moves the loop one entry on without changing where it ends up. */
  lemma AppendStep(out: seq<Task>, id: string, a: nat, kind: Kind, urls: seq<Option<string>>, i: nat, goal: seq<Task>)
    requires i < |urls|
    requires out + KindTasksFrom(id, a, kind, urls, i) == goal
    ensures (if Truthy(urls[i]) then out + [AssetTask(id, a, kind, i, urls[i].value)] else out)
            + KindTasksFrom(id, a, kind, urls, i + 1) == goal
  {
    // The case split is not needed in principle; without it the proof is unstable.
    var rest := KindTasksFrom(id, a, kind, urls, i + 1);
    if Truthy(urls[i]) {
      var task := AssetTask(id, a, kind, i, urls[i].value);
      assert KindTasksFrom(id, a, kind, urls, i) == [task] + rest;
      ConcatAssociative(out, [task], rest);
    } else {
      assert KindTasksFrom(id, a, kind, urls, i) == [] + rest == rest;
    }
  }

  /** The inner loop over one ad's images or videos. */
  method AppendKindTasks(tasks: seq<Task>, ad: Ad, a: nat, kind: Kind, downloadType: Option<string>)
    returns (out: seq<Task>)
    ensures out == tasks + KindTasks(ad, a, kind, downloadType)
  {
    out := tasks;
    if Wants(downloadType, kind) {
      var id := IdText(ad.id);
      var urls := AssetUrls(ad, kind);
      for i := 0 to |urls|
        invariant out + KindTasksFrom(id, a, kind, urls, i) == tasks + KindTasks(ad, a, kind, downloadType)
      {
        AppendStep(out, id, a, kind, urls, i, tasks + KindTasks(ad, a, kind, downloadType));
        if Truthy(urls[i]) {
          out := out + [AssetTask(id, a, kind, i, urls[i].value)];
        }
      }
    }
  }

  /** The handler's loop over the posted ads: images first, then videos, for each ad. */
  method EnumerateTasks(ads: seq<Ad>, downloadType: Option<string>) returns (tasks: seq<Task>)
    ensures tasks == PlanTasks(ads, downloadType)
  {
    tasks := [];
    for a := 0 to |ads|
      invariant tasks + PlanFrom(ads, downloadType, a) == PlanTasks(ads, downloadType)
    {
      ghost var before := tasks;
      // Regrouping the two appends explicitly keeps the proof within its resource budget.
      tasks := AppendKindTasks(tasks, ads[a], a, ImageAsset, downloadType);
      tasks := AppendKindTasks(tasks, ads[a], a, VideoAsset, downloadType);
      ConcatAssociative(before, KindTasks(ads[a], a, ImageAsset, downloadType), KindTasks(ads[a], a, VideoAsset, downloadType));
      ConcatAssociative(before, AdTasks(ads[a], a, downloadType), PlanFrom(ads, downloadType, a + 1));
    }
  }

  // ---------------------------------------------------------------------------
  // What is in the plan

  /**
   `t` is the task for an asset of `ad` (at position `a`) that the request asks
   for: the kind is wanted, the entry exists and has a non-empty URL, and the
   file name is built from the ad's id text, the kind and the entry's position
   in the original array.
   */
  predicate IsAssetOf(ad: Ad, a: nat, downloadType: Option<string>, t: Task) {
    && t.ad == a
    && Wants(downloadType, t.kind)
    && var urls := AssetUrls(ad, t.kind);
       && t.index < |urls|
       && Truthy(urls[t.index])
       && t.url == urls[t.index].value
       && t.fileName == FileName(IdText(ad.id), t.kind, t.index)
  }

  predicate IsPlannedAsset(ads: seq<Ad>, downloadType: Option<string>, t: Task) {
    t.ad < |ads| && IsAssetOf(ads[t.ad], t.ad, downloadType, t)
  }

  lemma {:induction false} KindTasksFromMembers(id: string, a: nat, kind: Kind, urls: seq<Option<string>>, i: nat, t: Task)
    requires i <= |urls|
    ensures t in KindTasksFrom(id, a, kind, urls, i) <==>
      && t.ad == a && t.kind == kind && i <= t.index < |urls|
      && Truthy(urls[t.index])
      && t.url == urls[t.index].value
      && t.fileName == FileName(id, kind, t.index)
    decreases |urls| - i
  {
    if i < |urls| {
      var rest := KindTasksFrom(id, a, kind, urls, i + 1);
      KindTasksFromMembers(id, a, kind, urls, i + 1, t);
      if Truthy(urls[i]) {
        var head := AssetTask(id, a, kind, i, urls[i].value);
        assert KindTasksFrom(id, a, kind, urls, i) == [head] + rest;
        assert t in [head] + rest <==> t == head || t in rest;
      } else {
        assert KindTasksFrom(id, a, kind, urls, i) == rest;
      }
    }
  }

  lemma AdTasksMembers(ad: Ad, a: nat, downloadType: Option<string>, t: Task)
    ensures t in AdTasks(ad, a, downloadType) <==> IsAssetOf(ad, a, downloadType, t)
  {
    KindTasksFromMembers(IdText(ad.id), a, ImageAsset, AssetUrls(ad, ImageAsset), 0, t);
    KindTasksFromMembers(IdText(ad.id), a, VideoAsset, AssetUrls(ad, VideoAsset), 0, t);
  }

  lemma {:induction false} PlanFromMembers(ads: seq<Ad>, downloadType: Option<string>, a: nat, t: Task)
    requires a <= |ads|
    ensures t in PlanFrom(ads, downloadType, a) <==> a <= t.ad && IsPlannedAsset(ads, downloadType, t)
    decreases |ads| - a
  {
    if a < |ads| {
      PlanFromMembers(ads, downloadType, a + 1, t);
      AdTasksMembers(ads[a], a, downloadType, t);
    }
  }

  /** A task is in the plan exactly when it is the task for a requested asset. */
  lemma PlanMembers(ads: seq<Ad>, downloadType: Option<string>, t: Task)
    ensures t in PlanTasks(ads, downloadType) <==> IsPlannedAsset(ads, downloadType, t)
  {
    PlanFromMembers(ads, downloadType, 0, t);
  }

  /**
   Only wanted kinds are planned: 'videos' plans no image, 'images' plans no
   video, and any value other than 'all', 'images' or 'videos' plans nothing.
   */
  lemma KindFilter(ads: seq<Ad>, downloadType: Option<string>)
    ensures forall t :: t in PlanTasks(ads, downloadType) ==> Wants(downloadType, t.kind)
    ensures downloadType == Some("videos") ==> forall t :: t in PlanTasks(ads, downloadType) ==> t.kind == VideoAsset
    ensures downloadType == Some("images") ==> forall t :: t in PlanTasks(ads, downloadType) ==> t.kind == ImageAsset
    ensures downloadType !in {Some("all"), Some("images"), Some("videos")} ==> PlanTasks(ads, downloadType) == []
  {
    forall t | t in PlanTasks(ads, downloadType)
      ensures Wants(downloadType, t.kind)
    {
      PlanMembers(ads, downloadType, t);
    }
    PlanCount(ads, downloadType);
  }

  // ---------------------------------------------------------------------------
  // How many tasks

  /** The number of requested assets: present URLs of each wanted kind, over all ads. */
  function Requested(ads: seq<Ad>, downloadType: Option<string>): nat
  {
    (if Wants(downloadType, ImageAsset) then TotalPresent(ads, ImageAsset) else 0)
    + (if Wants(downloadType, VideoAsset) then TotalPresent(ads, VideoAsset) else 0)
  }

  lemma {:induction false} KindTasksFromCount(id: string, a: nat, kind: Kind, urls: seq<Option<string>>, i: nat)
    requires i <= |urls|
    ensures |KindTasksFrom(id, a, kind, urls, i)| == PresentCount(urls[i..])
    decreases |urls| - i
  {
    if i < |urls| {
      KindTasksFromCount(id, a, kind, urls, i + 1);
      assert urls[i..][1..] == urls[i + 1..];
    } else {
      assert urls[i..] == [];
    }
  }

  lemma {:induction false} PlanFromCount(ads: seq<Ad>, downloadType: Option<string>, a: nat)
    requires a <= |ads|
    ensures |PlanFrom(ads, downloadType, a)| == Requested(ads[a..], downloadType)
    decreases |ads| - a
  {
    if a < |ads| {
      PlanFromCount(ads, downloadType, a + 1);
      var ad := ads[a];
      KindTasksFromCount(IdText(ad.id), a, ImageAsset, AssetUrls(ad, ImageAsset), 0);
      KindTasksFromCount(IdText(ad.id), a, VideoAsset, AssetUrls(ad, VideoAsset), 0);
      assert AssetUrls(ad, ImageAsset)[0..] == AssetUrls(ad, ImageAsset);
      assert AssetUrls(ad, VideoAsset)[0..] == AssetUrls(ad, VideoAsset);
      assert ads[a..][0] == ad;
      assert ads[a..][1..] == ads[a + 1..];
    } else {
      assert ads[a..] == [];
    }
  }

  /** The plan has one task per requested asset. */
  lemma PlanCount(ads: seq<Ad>, downloadType: Option<string>)
    ensures |PlanTasks(ads, downloadType)| == Requested(ads, downloadType)
  {
    PlanFromCount(ads, downloadType, 0);
    assert ads[0..] == ads;
  }

  /** With 'all', the count is the images with a URL plus the videos with a URL, over all ads. */
  lemma AllCount(ads: seq<Ad>)
    ensures |PlanTasks(ads, Some("all"))| == TotalPresent(ads, ImageAsset) + TotalPresent(ads, VideoAsset)
  {
    PlanCount(ads, Some("all"));
  }

  // ---------------------------------------------------------------------------
  // In which order

  function KindRank(kind: Kind): nat {
    match kind
    case ImageAsset => 0
    case VideoAsset => 1
  }

  /** By ad position, then images before videos, then by position in the ad's array. */
  predicate Before(t: Task, u: Task) {
    || t.ad < u.ad
    || (t.ad == u.ad && KindRank(t.kind) < KindRank(u.kind))
    || (t.ad == u.ad && t.kind == u.kind && t.index < u.index)
  }

  predicate Ordered(ts: seq<Task>) {
    forall j, k :: 0 <= j < k < |ts| ==> Before(ts[j], ts[k])
  }

  lemma OrderedConcat(xs: seq<Task>, ys: seq<Task>)
    requires Ordered(xs) && Ordered(ys)
    requires forall x, y :: x in xs && y in ys ==> Before(x, y)
    ensures Ordered(xs + ys)
  {
  }

  lemma {:induction false} KindTasksFromOrdered(id: string, a: nat, kind: Kind, urls: seq<Option<string>>, i: nat)
    requires i <= |urls|
    ensures Ordered(KindTasksFrom(id, a, kind, urls, i))
    decreases |urls| - i
  {
    if i < |urls| {
      KindTasksFromOrdered(id, a, kind, urls, i + 1);
      var head := if Truthy(urls[i]) then [AssetTask(id, a, kind, i, urls[i].value)] else [];
      OrderedConcat(head, KindTasksFrom(id, a, kind, urls, i + 1));
    }
  }

  lemma {:induction false} PlanFromOrdered(ads: seq<Ad>, downloadType: Option<string>, a: nat)
    requires a <= |ads|
    ensures Ordered(PlanFrom(ads, downloadType, a))
    decreases |ads| - a
  {
    if a < |ads| {
      var ad := ads[a];
      PlanFromOrdered(ads, downloadType, a + 1);
      KindTasksFromOrdered(IdText(ad.id), a, ImageAsset, AssetUrls(ad, ImageAsset), 0);
      KindTasksFromOrdered(IdText(ad.id), a, VideoAsset, AssetUrls(ad, VideoAsset), 0);
      OrderedConcat(KindTasks(ad, a, ImageAsset, downloadType), KindTasks(ad, a, VideoAsset, downloadType));
      OrderedConcat(AdTasks(ad, a, downloadType), PlanFrom(ads, downloadType, a + 1));
    }
  }

  /**
   The plan is ordered by ad; within an ad all images come before all videos,
   each in increasing position. In particular no task appears twice.
   */
  lemma PlanOrdered(ads: seq<Ad>, downloadType: Option<string>)
    ensures Ordered(PlanTasks(ads, downloadType))
  {
    PlanFromOrdered(ads, downloadType, 0);
  }

  // ---------------------------------------------------------------------------
  // File names do not collide

  /** The ids of the posted ads, as rendered into file names, are pairwise different. */
  predicate DistinctIds(ads: seq<Ad>) {
    forall j, k :: 0 <= j < k < |ads| ==> IdText(ads[j].id) != IdText(ads[k].id)
  }

  /** When the ads' ids differ, no two tasks of the plan write to the same file. */
  lemma PlanFileNamesDistinct(ads: seq<Ad>, downloadType: Option<string>)
    requires DistinctIds(ads)
    ensures forall j, k :: 0 <= j < k < |PlanTasks(ads, downloadType)| ==>
      PlanTasks(ads, downloadType)[j].fileName != PlanTasks(ads, downloadType)[k].fileName
  {
    var ts := PlanTasks(ads, downloadType);
    PlanOrdered(ads, downloadType);
    forall j, k | 0 <= j < k < |ts|
      ensures ts[j].fileName != ts[k].fileName
    {
      var t, u := ts[j], ts[k];
      PlanMembers(ads, downloadType, t);
      PlanMembers(ads, downloadType, u);
      var idT, idU := IdText(ads[t.ad].id), IdText(ads[u.ad].id);
      assert Before(t, u);
      assert idT != idU || t.kind != u.kind || t.index != u.index;
      FileNameInjective(idT, t.kind, t.index, idU, u.kind, u.index);
    }
  }
}
