/** Release-asset URLs (src/github-asset-url.ts, and its copy in src/github.ts).

    A URL of the form `https://github.com/<owner>/<repo>/releases/download/<tag>/<name>`
    is split into its four parts by one anchored regular expression:
    `^https://github.com/([^/]+)/([^/]+)/releases/download/([^/]+)/(.+)$`.
    Owner, repo and tag are non-empty and free of `/`; the name is non-empty, may hold
    `/`, and holds no line terminator (what `.` refuses). The `.` in `github.com` is
    an unescaped regular-expression dot, so it stands for any one character that is
    not a line terminator. */
module AssetUrl {
  import opened Wrappers
  import opened Strings

  /** The four parts of a release-asset URL. */
  datatype AssetUrl = AssetUrl(owner: string, repo: string, tag: string, name: string)

  /** The characters the regular-expression `.` does not match. */
  predicate IsLineTerminator(c: char) {
    c == '\n' || c == '\r' || c == '\U{2028}' || c == '\U{2029}'
  }

  predicate NoLineTerminator(s: string) {
    forall i | 0 <= i < |s| :: !IsLineTerminator(s[i])
  }

  /** What `[^/]+` matches. */
  predicate IsSegment(s: string) {
    s != [] && '/' !in s
  }

  /** The parts the regular expression can capture. */
  predicate WellFormed(a: AssetUrl) {
    && IsSegment(a.owner) && IsSegment(a.repo) && IsSegment(a.tag)
    && a.name != [] && NoLineTerminator(a.name)
  }

  /** Everything after the host. */
  function Path(a: AssetUrl): string {
    "/" + a.owner + ("/" + a.repo + ("/releases/download" + ("/" + a.tag + ("/" + a.name))))
  }

  /** The URL with parts `a`, the character `sep` standing where the dot of
      `github.com` stands. */
  function Render(sep: char, a: AssetUrl): string {
    "https://github" + [sep] + "com" + Path(a)
  }

  /** `/`, a `/`-free segment, then the rest, which starts with the next `/`: what
      `/([^/]+)` matches when a `/` must follow. */
  function Segment(s: string): (r: Option<(string, string)>)
    ensures r.Some? ==> IsSegment(r.value.0) && r.value.1 != [] && r.value.1[0] == '/'
    ensures r.Some? ==> s == "/" + r.value.0 + r.value.1
  {
    if s == [] || s[0] != '/' then None
    else match IndexOf(s[1..], '/')
      case None => None
      case Some(j) =>
        if j == 0 then None
        else
          assert s == "/" + s[1..1 + j] + s[1 + j..];
          assert s[1..][..j] == s[1..1 + j];
          Some((s[1..1 + j], s[1 + j..]))
  }

  /** A segment followed by text that starts with `/` is split off exactly. */
  lemma SegmentOf(seg: string, rest: string)
    requires IsSegment(seg) && rest != [] && rest[0] == '/'
    ensures Segment("/" + seg + rest) == Some((seg, rest))
  {
    var s := "/" + seg + rest;
    assert s[1..] == seg + [rest[0]] + rest[1..];
    IndexOfAfter(seg, '/', rest[1..]);
    assert s[1..1 + |seg|] == seg;
    assert s[1 + |seg|..] == rest;
  }

  /** The length of `https://github.com`. */
  const HostLength: nat := 18

  /** Whether the URL starts like `https://github.com`, the dot standing for any
      character but a line terminator. */
  predicate HasHost(url: string) {
    && |url| >= HostLength
    && url[..14] == "https://github"
    && !IsLineTerminator(url[14])
    && url[15..HostLength] == "com"
  }

  /** The parts of a release-asset URL, or `None` when the regular expression does
      not match. */
  function Parse(url: string): (r: Option<AssetUrl>)
    ensures r.Some? ==> WellFormed(r.value) && HasHost(url) && url == Render(url[14], r.value)
  {
    if !HasHost(url) then None
    else
      match Segment(url[HostLength..])
      case None => None
      case Some((owner, afterOwner)) =>
        match Segment(afterOwner)
        case None => None
        case Some((repo, afterRepo)) =>
          if |afterRepo| < 18 || afterRepo[..18] != "/releases/download" then None
          else
            match Segment(afterRepo[18..])
            case None => None
            case Some((tag, afterTag)) =>
              var name := afterTag[1..];
              if name == [] || !NoLineTerminator(name) then None
              else
                var a := AssetUrl(owner, repo, tag, name);
                PathOf(url[HostLength..], a, afterOwner, afterRepo, afterTag);
                HostSplit(url);
                Some(a)
  }

  /** Reassembling the path from the pieces Parse cut it into. */
  lemma PathOf(p: string, a: AssetUrl, afterOwner: string, afterRepo: string, afterTag: string)
    requires p == "/" + a.owner + afterOwner
    requires afterOwner == "/" + a.repo + afterRepo
    requires |afterRepo| >= 18 && afterRepo[..18] == "/releases/download"
    requires afterRepo[18..] == "/" + a.tag + afterTag
    requires afterTag != [] && afterTag[0] == '/' && a.name == afterTag[1..]
    ensures p == Path(a)
  {
    assert afterTag == "/" + a.name;
    assert afterRepo == "/releases/download" + afterRepo[18..];
  }

  lemma HostSplit(url: string)
    requires HasHost(url)
    ensures url == "https://github" + [url[14]] + "com" + url[HostLength..]
  {
    assert url == url[..14] + [url[14]] + url[15..HostLength] + url[HostLength..];
  }

  /** The host of a rendered URL. */
  lemma RenderHost(sep: char, a: AssetUrl)
    requires !IsLineTerminator(sep)
    ensures var url := Render(sep, a);
      HasHost(url) && url[14] == sep && url[HostLength..] == Path(a)
  {
    var url := Render(sep, a);
    assert url[..14] == "https://github";
    assert url[15..HostLength] == "com";
  }

  /** Print then parse: a URL built from well-formed parts parses back to them. */
  lemma PrintThenParse(sep: char, a: AssetUrl)
    requires WellFormed(a) && !IsLineTerminator(sep)
    ensures Parse(Render(sep, a)) == Some(a)
  {
    var url := Render(sep, a);
    RenderHost(sep, a);
    var afterRepo := "/releases/download" + ("/" + a.tag + ("/" + a.name));
    var afterOwner := "/" + a.repo + afterRepo;
    SegmentOf(a.owner, afterOwner);
    SegmentOf(a.repo, afterRepo);
    assert afterRepo[..18] == "/releases/download";
    assert afterRepo[18..] == "/" + a.tag + ("/" + a.name);
    SegmentOf(a.tag, "/" + a.name);
    assert ("/" + a.name)[1..] == a.name;
  }

  /** Parse then print, and print then parse, together: the URL parses to `a` exactly
      when it is `a` rendered with a host dot that is not a line terminator. */
  lemma ParseIff(url: string, a: AssetUrl)
    ensures Parse(url) == Some(a) <==>
      (WellFormed(a) && HasHost(url) && url == Render(url[14], a))
  {
    if WellFormed(a) && HasHost(url) && url == Render(url[14], a) {
      PrintThenParse(url[14], a);
    }
  }

  /** The dot of `github.com` is a wildcard: `https://githubXcom/...` parses too. */
  lemma HostDotIsWildcard(a: AssetUrl)
    requires WellFormed(a)
    ensures Parse(Render('X', a)) == Some(a)
    ensures Render('X', a) != Render('.', a)
  {
    PrintThenParse('X', a);
    RenderHost('X', a);
    RenderHost('.', a);
  }

  /** The source's second test, for every path: a URL on `githubx.com` is not a
      release-asset URL. */
  lemma OtherHostRejected(path: string)
    ensures Parse("https://githubx.com" + path) == None
  {
    var url := "https://githubx.com" + path;
    assert url[15..HostLength] == ".co";
  }

  /** The source's third test, for every owner, repo and rest: a github.com URL whose
      path does not go on with `/releases/download` after the repo is not a
      release-asset URL. */
  lemma NonReleaseRejected(owner: string, repo: string, rest: string)
    requires IsSegment(owner) && IsSegment(repo) && rest != [] && rest[0] == '/'
    requires |rest| < 18 || rest[..18] != "/releases/download"
    ensures Parse("https://github.com/" + owner + "/" + repo + rest) == None
  {
    var url := "https://github.com/" + owner + "/" + repo + rest;
    assert url == "https://github.com" + ("/" + owner + ("/" + repo + rest));
    assert url[..14] == "https://github";
    assert url[15..HostLength] == "com";
    assert url[HostLength..] == "/" + owner + ("/" + repo + rest);
    SegmentOf(owner, "/" + repo + rest);
    SegmentOf(repo, rest);
  }
}
