/** The Data Dragon wrapper of the backend: it picks the newest game version from the
    versions list and turns the champion feed into the `{champions, count}` dict the
    `/api/champions` route serves. The two HTTP replies it reads are inputs. */
module LolApi {
  import opened Wrappers
  import opened Champions
  import opened PyJson

  const BaseUrl := "https://ddragon.leagueoflegends.com"

  /** An HTTP reply: its status code and its decoded JSON body. */
  datatype Reply<T> = Reply(status: int, body: T)

  /** The exceptions `get_champions` lets escape. */
  datatype ApiError =
    | HttpError(status: int)  // `raise_for_status` on a 4xx or 5xx reply
    | IndexError              // `response.json()[0]` on an empty versions list
    | MissingKey(key: string) // a `KeyError` on the feed or on one champion record

  /** A champion record of the feed; only its string fields are modelled. */
  type Record = map<string, string>

  /** The dict `get_champions` returns. */
  datatype ChampionList = ChampionList(champions: seq<Champion>, count: int)

  function VersionsUrl(): string
  {
    BaseUrl + "/api/versions.json"
  }

  /** The CDN directory of one game version. */
  function CdnRoot(version: string): string
  {
    BaseUrl + "/cdn/" + version
  }

  function ChampionsUrl(version: string): (u: string)
    ensures CdnRoot(version) <= u
  {
    var root := CdnRoot(version);
    assert (root + "/data/en_US/champion.json")[..|root|] == root;
    root + "/data/en_US/champion.json"
  }

  /** The square portrait of champion `id` in the CDN directory of `version`. */
  function IconUrl(version: string, id: string): (u: string)
    ensures CdnRoot(version) <= u
  {
    var root := CdnRoot(version);
    assert (root + "/img/champion/" + id + ".png")[..|root|] == root;
    root + "/img/champion/" + id + ".png"
  }

  /** A portrait URL's champion id: what lies between the champion image directory and `.png`. */
  function IconId(version: string, url: string): Option<string>
  {
    var dir := CdnRoot(version) + "/img/champion/";
    if |url| >= |dir| + 4 && url[..|dir|] == dir && url[|url| - 4..] == ".png"
    then Some(url[|dir|..|url| - 4])
    else None
  }

  /** The portrait URL keeps the champion id recoverable. */
  lemma IconUrlRoundTrip(version: string, id: string)
    ensures IconId(version, IconUrl(version, id)) == Some(id)
  {
    var dir := CdnRoot(version) + "/img/champion/";
    var url := IconUrl(version, id);
    assert url == dir + id + ".png";
    assert url[..|dir|] == dir;
    assert url[|url| - 4..] == ".png";
    assert url[|dir|..|url| - 4] == id;
  }

  /** Distinct ids give distinct portrait URLs. */
  lemma IconUrlInjective(version: string, a: string, b: string)
    requires IconUrl(version, a) == IconUrl(version, b)
    ensures a == b
  {
    IconUrlRoundTrip(version, a);
    IconUrlRoundTrip(version, b);
  }

  predicate RaisesForStatus(status: int)
  {
    400 <= status < 600
  }

  /** `get_latest_version`: the first element of the versions list. */
  function LatestVersion(reply: Reply<seq<string>>): (r: Result<string, ApiError>)
    ensures r.Ok? <==> !RaisesForStatus(reply.status) && |reply.body| > 0
    ensures r.Ok? ==> r.value == reply.body[0]
    ensures RaisesForStatus(reply.status) ==> r == Err(HttpError(reply.status))
    ensures !RaisesForStatus(reply.status) && reply.body == [] ==> r == Err(IndexError)
  {
    if RaisesForStatus(reply.status) then Err(HttpError(reply.status))
    else if reply.body == [] then Err(IndexError)
    else Ok(reply.body[0])
  }

  predicate HasFields(rec: Record)
  {
    "id" in rec && "name" in rec
  }

  /** The exception the projection of a record lacking a field raises: `id` is read first. */
  function FieldError(rec: Record): ApiError
  {
    if "id" !in rec then MissingKey("id") else MissingKey("name")
  }

  /** The body of the loop for one record: the dictionary key is not used. */
  function Project(version: string, rec: Record): (r: Result<Champion, ApiError>)
    ensures r.Ok? <==> HasFields(rec)
    ensures r.Ok? ==> r.value.championId == rec["id"] && r.value.name == rec["name"]
    ensures r.Ok? ==> IconId(version, r.value.iconUrl) == Some(rec["id"])
    ensures r.Err? ==> r.error == FieldError(rec)
  {
    if "id" !in rec then Err(MissingKey("id"))
    else
      var id := rec["id"];
      if "name" !in rec then Err(MissingKey("name"))
      else
        IconUrlRoundTrip(version, id);
        Ok(Champion(id, rec["name"], IconUrl(version, id)))
  }

  /** The loop over `data["data"].items()`, in iteration order; the first record that lacks
      a field stops it with that record's exception. */
  function Transform(version: string, entries: seq<(string, Record)>): (r: Result<seq<Champion>, ApiError>)
    ensures r.Ok? ==> |r.value| == |entries|
    decreases |entries|
  {
    if entries == [] then Ok([])
    else
      match Transform(version, entries[..|entries| - 1])
      case Err(e) => Err(e)
      case Ok(cs) =>
        match Project(version, entries[|entries| - 1].1)
        case Err(e) => Err(e)
        case Ok(c) => Ok(cs + [c])
  }

  /** The transformation succeeds exactly when every record has both fields, and then it
      holds one champion per record, in order, projected from that record alone. */
  lemma {:induction false} TransformOk(version: string, entries: seq<(string, Record)>)
    ensures Transform(version, entries).Ok? <==> forall i :: 0 <= i < |entries| ==> HasFields(entries[i].1)
    ensures Transform(version, entries).Ok? ==>
      forall i :: 0 <= i < |entries| ==> Project(version, entries[i].1) == Ok(Transform(version, entries).value[i])
    decreases |entries|
  {
    if entries != [] {
      var init := entries[..|entries| - 1];
      TransformOk(version, init);
      assert forall i :: 0 <= i < |init| ==> init[i] == entries[i];
    }
  }

  /** A failed transformation reports the first record lacking a field. */
  lemma {:induction false} TransformFirstError(version: string, entries: seq<(string, Record)>, k: nat)
    requires k < |entries| && !HasFields(entries[k].1)
    requires forall i :: 0 <= i < k ==> HasFields(entries[i].1)
    ensures Transform(version, entries) == Err(FieldError(entries[k].1))
    decreases |entries|
  {
    var init := entries[..|entries| - 1];
    if k < |entries| - 1 {
      TransformFirstError(version, init, k);
    } else {
      TransformOk(version, init);
    }
  }

  /** The dictionary keys of the feed play no part: only the records do. */
  lemma {:induction false} TransformIgnoresKeys(version: string, a: seq<(string, Record)>, b: seq<(string, Record)>)
    requires |a| == |b|
    requires forall i :: 0 <= i < |a| ==> a[i].1 == b[i].1
    ensures Transform(version, a) == Transform(version, b)
    decreases |a|
  {
    if a != [] {
      TransformIgnoresKeys(version, a[..|a| - 1], b[..|b| - 1]);
    }
  }

  /** `get_champions` on the two replies it reads: the versions list, then the champion feed
      (`None` when the feed has no `data` member). */
  function FetchChampions(versions: Reply<seq<string>>, feed: Reply<Option<seq<(string, Record)>>>): (r: Result<ChampionList, ApiError>)
    ensures r.Ok? ==> r.value.count == |r.value.champions|
    ensures r.Ok? ==> LatestVersion(versions).Ok? && feed.body.Some? && |r.value.champions| == |feed.body.value|
    ensures LatestVersion(versions).Err? ==> r == Err(LatestVersion(versions).error)
    ensures LatestVersion(versions).Ok? && RaisesForStatus(feed.status) ==> r == Err(HttpError(feed.status))
    ensures LatestVersion(versions).Ok? && !RaisesForStatus(feed.status) && feed.body.None? ==> r == Err(MissingKey("data"))
    ensures r.Ok? <==>
      LatestVersion(versions).Ok? && !RaisesForStatus(feed.status) && feed.body.Some? &&
      forall i :: 0 <= i < |feed.body.value| ==> HasFields(feed.body.value[i].1)
  {
    match LatestVersion(versions)
    case Err(e) => Err(e)
    case Ok(version) =>
      if RaisesForStatus(feed.status) then Err(HttpError(feed.status))
      else
        match feed.body
        case None => Err(MissingKey("data"))
        case Some(entries) =>
          TransformOk(version, entries);
          match Transform(version, entries)
          case Err(e) => Err(e)
          case Ok(cs) => Ok(ChampionList(cs, |cs|))
  }

  /** Each returned entry comes from the record at the same position, with the icon URL
      built from the newest version and the record's `id`. */
  lemma FetchChampionsEntries(versions: Reply<seq<string>>, feed: Reply<Option<seq<(string, Record)>>>, i: nat)
    requires FetchChampions(versions, feed).Ok?
    requires i < |FetchChampions(versions, feed).value.champions|
    ensures var rec := feed.body.value[i].1;
      HasFields(rec) &&
      FetchChampions(versions, feed).value.champions[i] ==
        Champion(rec["id"], rec["name"], IconUrl(versions.body[0], rec["id"]))
  {
    TransformOk(versions.body[0], feed.body.value);
  }

  /** `get_champions` as written: a request for the versions list, a request for the feed of
      the newest version, and a loop that appends one entry per record. Returns the URLs
      requested, in order, and the result. */
  method GetChampions(versions: Reply<seq<string>>, feed: Reply<Option<seq<(string, Record)>>>)
    returns (requested: seq<string>, r: Result<ChampionList, ApiError>)
    ensures r == FetchChampions(versions, feed)
    ensures requested == if LatestVersion(versions).Ok?
                         then [VersionsUrl(), ChampionsUrl(versions.body[0])]
                         else [VersionsUrl()]
  {
    requested := [VersionsUrl()];
    var latest := LatestVersion(versions);
    if latest.Err? {
      return requested, Err(latest.error);
    }
    var version := latest.value;
    requested := requested + [ChampionsUrl(version)];
    if RaisesForStatus(feed.status) {
      return requested, Err(HttpError(feed.status));
    }
    if feed.body.None? {
      return requested, Err(MissingKey("data"));
    }
    var entries := feed.body.value;
    var champions: seq<Champion> := [];
    for i := 0 to |entries|
      invariant Transform(version, entries[..i]) == Ok(champions)
    {
      var rec := entries[i].1;
      assert entries[..i + 1][..i] == entries[..i];
      if "id" !in rec || "name" !in rec {
        TransformOk(version, entries[..i]);
        TransformFirstError(version, entries, i);
        return requested, Err(FieldError(rec));
      }
      var id := rec["id"];
      champions := champions + [Champion(id, rec["name"], IconUrl(version, id))];
    }
    assert entries[..|entries|] == entries;
    r := Ok(ChampionList(champions, |champions|));
  }

  function ChampionJson(c: Champion): Json
  {
    JObj(map["champion_id" := JStr(c.championId), "name" := JStr(c.name), "icon_url" := JStr(c.iconUrl)])
  }

  /** The dict `get_champions` returns, as the JSON value the backend serves it as. */
  function AsJson(l: ChampionList): (j: Json)
    ensures j.JObj? && j.fields.Keys == {"champions", "count"}
  {
    JObj(map["champions" := JArr(seq(|l.champions|, i requires 0 <= i < |l.champions| => ChampionJson(l.champions[i]))),
             "count" := JNum(l.count)])
  }
}
