/** Locating a release asset through the GitHub API (src/github.ts).

    When a download URL is a release-asset URL, the release named by its owner, repo
    and tag is looked up, and the asset whose name is the URL's name is downloaded
    through the API with the token, rather than through the public URL. Any other
    URL, and a release without such an asset, is downloaded as given, with no
    credentials. The API request is a parameter of the model: a function from
    `(owner, repo, tag)` to the release's assets in the order the API lists them, or
    to the error the request fails with. The copy of the URL parser kept in this
    file is the one of module AssetUrl. */
module GitHub {
  import opened Wrappers
  import opened AssetUrl

  /** The fields of a release asset the lookup uses. */
  datatype Asset = Asset(id: nat, name: string, url: string)

  /** The arguments handed to the downloader. `auth` and `headers` are absent for an
      anonymous download. */
  datatype DownloadArgs = DownloadArgs(url: string, auth: Option<string>, headers: Option<map<string, string>>)

  /** `GET /repos/{owner}/{repo}/releases/tags/{tag}`: the release's assets, or the
      error the request fails with. */
  type ReleaseRequest = (string, string, string) -> Result<seq<Asset>, string>

  /** The URL downloaded as given: no credentials, no extra headers. */
  function Anonymous(url: string): DownloadArgs {
    DownloadArgs(url, None, None)
  }

  /** The headers that ask the API for the asset's bytes. */
  function OctetStream(): map<string, string> {
    map["Accept" := "application/octet-stream"]
  }

  predicate NoneNamed(assets: seq<Asset>, name: string) {
    forall i | 0 <= i < |assets| :: assets[i].name != name
  }

  /** Asset `i` is named `name` and none before it is. */
  predicate FirstNamed(assets: seq<Asset>, name: string, i: int) {
    && 0 <= i < |assets|
    && assets[i].name == name
    && NoneNamed(assets[..i], name)
  }

  /** `assets.find(asset => asset.name === name)`. */
  function FindAsset(assets: seq<Asset>, name: string): (r: Option<Asset>)
    ensures r.None? <==> NoneNamed(assets, name)
    ensures r.Some? ==> exists i :: FirstNamed(assets, name, i) && r.value == assets[i]
  {
    if assets == [] then None
    else if assets[0].name == name then
      assert FirstNamed(assets, name, 0);
      Some(assets[0])
    else
      ShiftAssets(assets, name);
      FindAsset(assets[1..], name)
  }

  /** Past a first asset with another name, the search goes on among the others. */
  lemma ShiftAssets(assets: seq<Asset>, name: string)
    requires assets != [] && assets[0].name != name
    ensures NoneNamed(assets, name) <==> NoneNamed(assets[1..], name)
    ensures forall i | FirstNamed(assets[1..], name, i) :: FirstNamed(assets, name, i + 1) && assets[i + 1] == assets[1..][i]
  {
    assert forall i | 1 <= i < |assets| :: assets[i] == assets[1..][i - 1];
    forall i | FirstNamed(assets[1..], name, i) ensures FirstNamed(assets, name, i + 1) {
      assert assets[..i + 1] == [assets[0]] + assets[1..][..i];
    }
  }

  /** The asset found is the first one with the name, whichever that is. */
  lemma FindAssetIsFirst(assets: seq<Asset>, name: string, i: int)
    requires FirstNamed(assets, name, i)
    ensures FindAsset(assets, name) == Some(assets[i])
  {
    var r := FindAsset(assets, name);
    assert !NoneNamed(assets, name);
    var k :| FirstNamed(assets, name, k) && r.value == assets[k];
    assert forall j | 0 <= j < i :: assets[..i][j] == assets[j];
    assert forall j | 0 <= j < k :: assets[..k][j] == assets[j];
  }

  /** `findReleaseAsset(url, githubToken)`, with the API request `request`. A failed
      request is the error the source's `await` throws. */
  function FindReleaseAsset(url: string, token: string, request: ReleaseRequest): (r: Result<DownloadArgs, string>)
    ensures Parse(url).None? ==> r == Ok(Anonymous(url))
    ensures r.Err? <==> Parse(url).Some? && Requested(url, request).Err?
    ensures r.Err? ==> Parse(url).Some? && r.error == Requested(url, request).error
    ensures Parse(url).Some? && Requested(url, request).Ok? ==>
      (r == Ok(Anonymous(url)) <==> NoneNamed(Requested(url, request).value, Parse(url).value.name))
    ensures Parse(url).Some? && Requested(url, request).Ok? ==>
      (!NoneNamed(Requested(url, request).value, Parse(url).value.name) ==> r.Ok? && r.value.auth.Some?)
    ensures r.Ok? && r.value.auth.None? ==> r.value == Anonymous(url)
    ensures r.Ok? && r.value.auth.Some? ==>
      && Parse(url).Some? && Requested(url, request).Ok?
      && r.value.auth == Some("token " + token) && r.value.headers == Some(OctetStream())
      && exists i :: FirstNamed(Requested(url, request).value, Parse(url).value.name, i)
                  && r.value.url == Requested(url, request).value[i].url
  {
    match Parse(url)
    case None => Ok(Anonymous(url))
    case Some(a) =>
      var assets :- request(a.owner, a.repo, a.tag);
      match FindAsset(assets, a.name)
      case None => Ok(Anonymous(url))
      case Some(asset) =>
        Ok(DownloadArgs(asset.url, Some("token " + token), Some(OctetStream())))
  }

  /** The request made for a release-asset URL: the one for its owner, repo and tag. */
  function Requested(url: string, request: ReleaseRequest): Result<seq<Asset>, string>
    requires Parse(url).Some?
  {
    var a := Parse(url).value;
    request(a.owner, a.repo, a.tag)
  }

  /** The lookup is keyed by exactly the parsed owner, repo and tag: two requests that
      agree on that one release give the same result, whatever they answer for others. */
  lemma KeyedByParsedRelease(url: string, token: string, request1: ReleaseRequest, request2: ReleaseRequest)
    requires Parse(url).Some? ==> Requested(url, request1) == Requested(url, request2)
    ensures FindReleaseAsset(url, token, request1) == FindReleaseAsset(url, token, request2)
  {
  }

  /** When the release has an asset with the URL's name, the first such asset in list
      order is downloaded through the API, with the token and the octet-stream header. */
  lemma FirstMatchDownloaded(url: string, token: string, request: ReleaseRequest, i: int)
    requires Parse(url).Some? && Requested(url, request).Ok?
    requires FirstNamed(Requested(url, request).value, Parse(url).value.name, i)
    ensures FindReleaseAsset(url, token, request)
      == Ok(DownloadArgs(Requested(url, request).value[i].url, Some("token " + token), Some(OctetStream())))
  {
    FindAssetIsFirst(Requested(url, request).value, Parse(url).value.name, i);
  }

  /** A release without an asset of the URL's name: the URL is downloaded as given. */
  lemma NoMatchAnonymous(url: string, token: string, request: ReleaseRequest)
    requires Parse(url).Some? && Requested(url, request).Ok?
    requires NoneNamed(Requested(url, request).value, Parse(url).value.name)
    ensures FindReleaseAsset(url, token, request) == Ok(Anonymous(url))
  {
  }

  /** For a URL built from well-formed parts, the release asked for is the one those
      parts name, and the asset downloaded is the first with the URL's asset name. */
  lemma RenderedUrlLooksUpItsRelease(a: AssetUrl, token: string, request: ReleaseRequest, i: int)
    requires WellFormed(a)
    requires request(a.owner, a.repo, a.tag).Ok?
    requires FirstNamed(request(a.owner, a.repo, a.tag).value, a.name, i)
    ensures FindReleaseAsset(Render('.', a), token, request)
      == Ok(DownloadArgs(request(a.owner, a.repo, a.tag).value[i].url, Some("token " + token), Some(OctetStream())))
  {
    PrintThenParse('.', a);
    FirstMatchDownloaded(Render('.', a), token, request, i);
  }
}
