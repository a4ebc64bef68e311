/** The expectations of src/github.test.ts about `toGitHubAssetUrl`, stated about
    `AssetUrl.Parse`. */
module AssetUrlTest {
  import opened Wrappers
  import opened AssetUrl

  /** The URL as the source's tests write it, with the parts `a`. */
  function Spelled(a: AssetUrl): string {
    "https://github.com/" + a.owner + "/" + a.repo + "/releases/download/" + a.tag + "/" + a.name
  }

  /** The spelled URL is the rendered one with `.` at the host dot. */
  lemma SpelledIsRendered(a: AssetUrl)
    ensures Spelled(a) == Render('.', a)
  {
    assert "https://github.com/" == "https://github" + ['.'] + "com" + "/";
    assert "/releases/download/" == "/releases/download" + "/";
  }

  /** A name without `\n`, `\r` and the two Unicode separators: every character of
      it is in the ASCII range from space to tilde. */
  lemma PrintableName(name: string)
    requires forall i | 0 <= i < |name| :: ' ' <= name[i] <= '~'
    ensures NoLineTerminator(name)
  {
  }

  /** The parts of the first test's URL are well formed. */
  lemma ExampleWellFormed(a: AssetUrl)
    requires a == AssetUrl("pbrisbin", "litx", "v0.0.0.2", "litx-x86_64-linux.tar.gz")
    ensures WellFormed(a)
  {
    assert IsSegment(a.owner) && IsSegment(a.repo) && IsSegment(a.tag);
    PrintableName(a.name);
  }

  /** The source's first test: a release-asset URL is split into its four parts. */
  lemma ParsesReleaseAsset(owner: string, repo: string, tag: string, name: string)
    requires owner == "pbrisbin" && repo == "litx" && tag == "v0.0.0.2" && name == "litx-x86_64-linux.tar.gz"
    ensures Parse(Spelled(AssetUrl(owner, repo, tag, name))) == Some(AssetUrl(owner, repo, tag, name))
  {
    var a := AssetUrl(owner, repo, tag, name);
    ExampleWellFormed(a);
    SpelledIsRendered(a);
    PrintThenParse('.', a);
  }

  /** The third test's URL, `.../pbrisbin/litx/tree/main/assets/...`. */
  lemma TreeUrlRejected(owner: string, repo: string, file: string)
    requires owner == "pbrisbin" && repo == "litx" && file == "litx-v0.0.0.2-x86_64-linux.tar.gz"
    ensures Parse("https://github.com/" + owner + "/" + repo + ("/tree/main/assets/" + file)) == None
  {
    var rest := "/tree/main/assets/" + file;
    assert rest[1] == 't';
    NonReleaseRejected(owner, repo, rest);
  }
}
