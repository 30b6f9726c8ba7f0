/**
  The quota cost table: for every resource of the video API, the quota units
  one call of each of its methods consumes. A constant two-level map,
  resource name to method name to cost.
 */
module QuotaCosts {

  const Costs: map<string, map<string, nat>> := map[
    "activities" := map["list" := 1],
    "captions" := map["list" := 50, "insert" := 400, "update" := 450, "delete" := 50],
    "channelBanners" := map["insert" := 50],
    "channels" := map["list" := 1, "update" := 50],
    "channelSections" := map["list" := 1, "insert" := 50, "update" := 50, "delete" := 50],
    "comments" := map["list" := 1, "insert" := 50, "update" := 50, "setModerationStatus" := 50, "delete" := 50],
    "commentThreads" := map["list" := 1, "insert" := 50, "update" := 50],
    "guideCategories" := map["list" := 1],
    "i18nLanguages" := map["list" := 1],
    "i18nRegions" := map["list" := 1],
    "members" := map["list" := 1],
    "membershipsLevels" := map["list" := 1],
    "playlistItems" := map["list" := 1, "insert" := 50, "update" := 50, "delete" := 50],
    "playlists" := map["list" := 1, "insert" := 50, "update" := 50, "delete" := 50],
    "search" := map["list" := 100],
    "subscriptions" := map["list" := 1, "insert" := 50, "delete" := 50],
    "thumbnails" := map["set" := 50],
    "videoAbuseReportReasons" := map["list" := 1],
    "videoCategories" := map["list" := 1],
    "videos" := map["list" := 1, "insert" := 1600, "update" := 50, "rate" := 50,
                    "getRating" := 1, "reportAbuse" := 50, "delete" := 50],
    "watermarks" := map["set" := 50, "unset" := 50]
  ]

  /** The table has an entry for `operation` of `resource`; a lookup outside it is a key error. */
  predicate Known(resource: string, operation: string) {
    resource in Costs && operation in Costs[resource]
  }

  /** The cost of one call of `resource`.`operation`. */
  function Cost(resource: string, operation: string): (c: nat)
    requires Known(resource, operation)
    ensures 1 <= c <= 1600
  {
    CostsInRange(resource, operation);
    Costs[resource][operation]
  }

  /** Every cost is a positive integer and none exceeds the 1600 of `videos.insert`. */
  lemma CostsInRange(resource: string, operation: string)
    requires Known(resource, operation)
    ensures 1 <= Costs[resource][operation] <= 1600
  {
  }

  /** `videos.insert` is the most expensive method of the table. */
  lemma VideosInsertIsMaximal()
    ensures Known("videos", "insert") && Costs["videos"]["insert"] == 1600
    ensures forall r, m :: r in Costs && m in Costs[r] ==> Costs[r][m] <= Costs["videos"]["insert"]
  {
  }

  /** A few entries the rest of the system relies on. */
  lemma NamedCosts()
    ensures Known("search", "list") && Cost("search", "list") == 100
    ensures Known("captions", "update") && Cost("captions", "update") == 450
    ensures Known("captions", "insert") && Cost("captions", "insert") == 400
  {
  }

  /** Every resource lists at least one method. */
  lemma ResourcesHaveMethods()
    ensures forall r :: r in Costs ==> |Costs[r]| > 0
  {
  }

  /** A `list` call costs 1 unit, except on `captions` (50) and `search` (100). */
  lemma ListCosts(resource: string)
    requires Known(resource, "list")
    ensures Cost(resource, "list") == (if resource == "captions" then 50 else if resource == "search" then 100 else 1)
  {
  }
}
