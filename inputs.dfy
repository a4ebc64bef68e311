/** Input resolution (src/inputs.ts).

    Every input is read through the action's input source. Most inputs cascade: the
    input `x` is looked up as `x-<platform>-<arch>`, `x-<arch>`, `x-<platform>` and `x`,
    in that order, and the first candidate with a non-empty value wins. A required
    input with no such candidate is an error, an optional one is absent, and a
    defaulted one takes its default. */
module Inputs {
  import opened Wrappers
  import opened Strings

  /** The host platforms the action knows about. */
  datatype Platform = Aix | Android | Cygwin | Darwin | FreeBsd | Haiku | Linux | NetBsd | OpenBsd | SunOs | Win32

  function PlatformName(p: Platform): string {
    match p
    case Aix => "aix"
    case Android => "android"
    case Cygwin => "cygwin"
    case Darwin => "darwin"
    case FreeBsd => "freebsd"
    case Haiku => "haiku"
    case Linux => "linux"
    case NetBsd => "netbsd"
    case OpenBsd => "openbsd"
    case SunOs => "sunos"
    case Win32 => "win32"
  }

  /** The host architectures the action knows about. */
  datatype Arch = Arm | Arm64 | Ia32 | Mips | Mipsel | Ppc | Ppc64 | S390 | S390x | X64

  function ArchName(a: Arch): string {
    match a
    case Arm => "arm"
    case Arm64 => "arm64"
    case Ia32 => "ia32"
    case Mips => "mips"
    case Mipsel => "mipsel"
    case Ppc => "ppc"
    case Ppc64 => "ppc64"
    case S390 => "s390"
    case S390x => "s390x"
    case X64 => "x64"
  }

  /** The action's input source: the value given for an input name, `None` for null. */
  type Source = string -> Option<string>

  /** A looked-up value that counts as given: not null and not the empty string. */
  predicate Present(v: Option<string>) {
    v.Some? && v.value != ""
  }

  /** No candidate has a value. */
  predicate NonePresent(src: Source, keys: seq<string>) {
    forall i | 0 <= i < |keys| :: !Present(src(keys[i]))
  }

  /** Candidate `i` is the first one with a value. */
  predicate FirstAt(src: Source, keys: seq<string>, i: int) {
    && 0 <= i < |keys|
    && Present(src(keys[i]))
    && forall j | 0 <= j < i :: !Present(src(keys[j]))
  }

  /** The candidates for input `input`, most specific first. */
  function SpecifiedInputs(platform: Platform, arch: Arch, input: string): (r: seq<string>)
    ensures |r| == 4 && r[3] == input
    ensures r[0] == r[2] + "-" + ArchName(arch)
  {
    var p, a := PlatformName(platform), ArchName(arch);
    [input + "-" + p + "-" + a, input + "-" + a, input + "-" + p, input]
  }

  /** The last candidate is the input itself; the others are the input followed by
      `-` and a host qualifier, the most specific adding the architecture to the
      platform one. */
  lemma CandidateShapes(platform: Platform, arch: Arch, input: string)
    ensures var r := SpecifiedInputs(platform, arch, input);
      && |r| == 4 && r[3] == input
      && (forall i | 0 <= i < 3 :: |r[i]| > |input| + 1 && r[i][..|input| + 1] == input + "-")
      && r[0] == r[2] + "-" + ArchName(arch)
      && r[1] == input + "-" + ArchName(arch) && r[2] == input + "-" + PlatformName(platform)
  {
    var r := SpecifiedInputs(platform, arch, input);
    assert r[0][..|input| + 1] == input + "-";
    assert r[1][..|input| + 1] == input + "-";
    assert r[2][..|input| + 1] == input + "-";
  }

  /** No platform is spelled like an architecture. */
  lemma PlatformIsNotArch(p: Platform, a: Arch)
    ensures PlatformName(p) != ArchName(a)
  {
  }

  /** The four candidates of an input are four different names, so each lookup is
      a separate input. */
  lemma CandidatesDistinct(platform: Platform, arch: Arch, input: string)
    ensures var r := SpecifiedInputs(platform, arch, input);
            forall i, j | 0 <= i < j < 4 :: r[i] != r[j]
  {
    var r := SpecifiedInputs(platform, arch, input);
    var p, a := PlatformName(platform), ArchName(arch);
    assert |r[0]| > |r[1]| && |r[0]| > |r[2]|;
    PlatformIsNotArch(platform, arch);
    assert r[1][|input| + 1..] == a && r[2][|input| + 1..] == p;
  }

  /** The first candidate value that is given: the source's `map(getInput).find(x => x)`. */
  function FirstPresent(src: Source, keys: seq<string>): (r: Option<string>)
    ensures r.None? <==> NonePresent(src, keys)
    ensures r.Some? ==> exists i :: FirstAt(src, keys, i) && src(keys[i]) == r
  {
    if keys == [] then None
    else if Present(src(keys[0])) then src(keys[0])
    else
      ShiftCandidates(src, keys);
      FirstPresent(src, keys[1..])
  }

  /** Past a first candidate without a value, the search goes on among the others. */
  lemma ShiftCandidates(src: Source, keys: seq<string>)
    requires keys != [] && !Present(src(keys[0]))
    ensures NonePresent(src, keys) <==> NonePresent(src, keys[1..])
    ensures forall i | FirstAt(src, keys[1..], i) :: FirstAt(src, keys, i + 1) && keys[i + 1] == keys[1..][i]
  {
    assert forall i | 1 <= i < |keys| :: keys[i] == keys[1..][i - 1];
    forall i | FirstAt(src, keys[1..], i) ensures FirstAt(src, keys, i + 1) {
      forall j | 0 <= j < i + 1 ensures !Present(src(keys[j])) {
        if j > 0 {
          assert keys[j] == keys[1..][j - 1];
        }
      }
    }
  }

  /** The first given candidate is the one resolved: resolution returns `v` exactly
      when some candidate has value `v` and no earlier candidate has a value. */
  lemma FirstPresentIsFirst(src: Source, keys: seq<string>, i: int)
    requires FirstAt(src, keys, i)
    ensures FirstPresent(src, keys) == src(keys[i])
  {
    var r := FirstPresent(src, keys);
    assert !NonePresent(src, keys);
    var k :| FirstAt(src, keys, k) && src(keys[k]) == r;
    assert k == i;
  }

  /** Why a required input failed: none of its candidates had a value. */
  datatype InputError = MissingInput(candidates: seq<string>) {
    /** The message names every candidate. */
    function Message(): (r: string)
      ensures forall c | c in candidates :: Contains(r, c)
    {
      if |candidates| == 1 then
        Mentions("You must supply the ", candidates[0], " input");
        "You must supply the " + candidates[0] + " input"
      else
        forall c | c in candidates ensures Contains("You must supply one of " + JoinComma(candidates) + " as an input", c) {
          MentionsWithin("You must supply one of ", JoinComma(candidates), " as an input", c);
        }
        "You must supply one of " + JoinComma(candidates) + " as an input"
    }
  }

  /** The first given candidate, or the error naming every candidate. */
  function RequireInput(src: Source, keys: seq<string>): (r: Result<string, InputError>)
    ensures r.Err? <==> NonePresent(src, keys)
    ensures r.Err? ==> r.error == MissingInput(keys)
    ensures r.Ok? ==> r.value != "" && exists i :: FirstAt(src, keys, i) && src(keys[i]) == Some(r.value)
  {
    match FirstPresent(src, keys)
    case Some(v) => Ok(v)
    case None => Err(MissingInput(keys))
  }

  /** The first given candidate, or `None`. */
  function OptionalInput(src: Source, keys: seq<string>): (r: Option<string>)
    ensures r.None? <==> NonePresent(src, keys)
    ensures r.Some? ==> r.value != "" && exists i :: FirstAt(src, keys, i) && src(keys[i]) == r
  {
    FirstPresent(src, keys)
  }

  /** The first given candidate, or the default `def`. */
  function OptionalInputDefault(src: Source, keys: seq<string>, def: string): (r: string)
    ensures NonePresent(src, keys) ==> r == def
    ensures !NonePresent(src, keys) ==> r != "" && exists i :: FirstAt(src, keys, i) && src(keys[i]) == Some(r)
  {
    match FirstPresent(src, keys)
    case Some(v) => v
    case None => def
  }

  /** The archive extension a platform's releases usually have. */
  function InferExtension(platform: Platform): (r: string)
    ensures r == "zip" <==> platform == Win32
    ensures r != "zip" ==> r == "tar.gz"
  {
    match platform
    case Win32 => "zip"
    case _ => "tar.gz"
  }

  /** All the inputs of the action, resolved. */
  datatype Inputs = Inputs(
    name: string,
    version: string,
    url: string,
    subdir: Option<string>,
    os: string,
    arch: string,
    ext: string,
    noExtract: bool,
    githubToken: Option<string>,
    githubTokenForLatest: string)

  /** The two candidates for the token used to look up the latest release. */
  const TokenInputs: seq<string> := ["github-token", "github-token-for-latest"]

  /** Resolves every input for this host; the required inputs fail in the order
      `name`, `url`, `github-token-for-latest`. */
  function GetInputs(platform: Platform, osArch: Arch, src: Source): (r: Result<Inputs, InputError>)
    ensures r.Err? <==>
      NonePresent(src, ["name"]) || NonePresent(src, SpecifiedInputs(platform, osArch, "url"))
      || NonePresent(src, TokenInputs)
    ensures r.Err? ==> r.error == MissingInput(
      if NonePresent(src, ["name"]) then ["name"]
      else if NonePresent(src, SpecifiedInputs(platform, osArch, "url")) then SpecifiedInputs(platform, osArch, "url")
      else TokenInputs)
    ensures r.Ok? ==> Present(src("name")) && r.value.name == src("name").value
    ensures r.Ok? ==> r.value.version == if Present(src("version")) then src("version").value else ""
    ensures r.Ok? ==> (r.value.noExtract <==> src("no-extract") == Some("true"))
    ensures r.Ok? ==> r.value.githubToken == src("github-token")
  {
    var name :- RequireInput(src, ["name"]);
    var url :- RequireInput(src, SpecifiedInputs(platform, osArch, "url"));
    var tokenForLatest :- RequireInput(src, TokenInputs);
    assert FirstAt(src, ["name"], 0);
    Ok(Inputs(
      name := name,
      version := OptionalInput(src, ["version"]).GetOr(""),
      url := url,
      subdir := OptionalInput(src, SpecifiedInputs(platform, osArch, "subdir")),
      os := OptionalInputDefault(src, SpecifiedInputs(platform, osArch, "os"), PlatformName(platform)),
      arch := OptionalInputDefault(src, SpecifiedInputs(platform, osArch, "arch"), ArchName(osArch)),
      ext := OptionalInputDefault(src, SpecifiedInputs(platform, osArch, "ext"), InferExtension(platform)),
      noExtract := src("no-extract") == Some("true"),
      githubToken := src("github-token"),
      githubTokenForLatest := tokenForLatest))
  }

  /** A value given for the most specific candidate beats every other candidate. */
  lemma MostSpecificWins(src: Source, platform: Platform, arch: Arch, input: string, def: string)
    requires Present(src(input + "-" + PlatformName(platform) + "-" + ArchName(arch)))
    ensures OptionalInputDefault(src, SpecifiedInputs(platform, arch, input), def)
         == src(input + "-" + PlatformName(platform) + "-" + ArchName(arch)).value
  {
    FirstPresentIsFirst(src, SpecifiedInputs(platform, arch, input), 0);
  }

  /** With nothing given for them, `os` is the platform, `arch` the host architecture,
      `ext` the platform's usual extension and `subdir` absent. */
  lemma DefaultsWhenNotGiven(platform: Platform, osArch: Arch, src: Source)
    requires GetInputs(platform, osArch, src).Ok?
    requires NonePresent(src, SpecifiedInputs(platform, osArch, "os"))
    requires NonePresent(src, SpecifiedInputs(platform, osArch, "arch"))
    requires NonePresent(src, SpecifiedInputs(platform, osArch, "ext"))
    requires NonePresent(src, SpecifiedInputs(platform, osArch, "subdir"))
    ensures var inputs := GetInputs(platform, osArch, src).value;
            && inputs.os == PlatformName(platform)
            && inputs.arch == ArchName(osArch)
            && inputs.ext == (if platform == Win32 then "zip" else "tar.gz")
            && inputs.subdir == None
  {
  }

  /** The token for the latest release is `github-token` when that is given, and
      `github-token-for-latest` otherwise. */
  lemma TokenForLatestPrefersToken(platform: Platform, osArch: Arch, src: Source)
    requires GetInputs(platform, osArch, src).Ok?
    ensures GetInputs(platform, osArch, src).value.githubTokenForLatest
         == if Present(src("github-token")) then src("github-token").value
            else src("github-token-for-latest").value
  {
    if Present(src("github-token")) {
      FirstPresentIsFirst(src, TokenInputs, 0);
    } else {
      assert !NonePresent(src, TokenInputs);
      assert Present(src(TokenInputs[1]));
      FirstPresentIsFirst(src, TokenInputs, 1);
    }
  }

  /** The message of a missing input names the one candidate, or lists them all
      separated by commas, as JavaScript prints an array. */
  lemma MissingInputMessages(src: Source)
    requires !Present(src("name"))
    requires !Present(src("github-token")) && !Present(src("github-token-for-latest"))
    ensures RequireInput(src, ["name"]).Err?
    ensures RequireInput(src, ["name"]).error.Message() == "You must supply the name input"
    ensures RequireInput(src, TokenInputs).Err?
    ensures RequireInput(src, TokenInputs).error.Message()
         == "You must supply one of " + "github-token,github-token-for-latest" + " as an input"
  {
    assert NonePresent(src, ["name"]);
    assert NonePresent(src, TokenInputs);
    TokenListed();
  }

  lemma TokenListed()
    ensures JoinComma(TokenInputs) == "github-token,github-token-for-latest"
  {
    var t, l := "github-token", "github-token-for-latest";
    assert TokenInputs == [t, l] && TokenInputs[1..] == [l];
    assert JoinComma([l]) == l;
  }

  /** The required inputs are found whenever their plain names are given. */
  lemma RequiredGiven(platform: Platform, osArch: Arch, src: Source)
    requires Present(src("name")) && Present(src("url")) && Present(src("github-token-for-latest"))
    ensures GetInputs(platform, osArch, src).Ok?
  {
    assert Present(src(["name"][0]));
    assert Present(src(SpecifiedInputs(platform, osArch, "url")[3]));
    assert Present(src(TokenInputs[1]));
  }

  /** Where each cascading field of GetInputs comes from. */
  lemma CascadedFields(platform: Platform, osArch: Arch, src: Source)
    requires GetInputs(platform, osArch, src).Ok?
    ensures var inputs := GetInputs(platform, osArch, src).value;
      && Some(inputs.url) == FirstPresent(src, SpecifiedInputs(platform, osArch, "url"))
      && inputs.subdir == FirstPresent(src, SpecifiedInputs(platform, osArch, "subdir"))
      && inputs.os == OptionalInputDefault(src, SpecifiedInputs(platform, osArch, "os"), PlatformName(platform))
      && inputs.arch == OptionalInputDefault(src, SpecifiedInputs(platform, osArch, "arch"), ArchName(osArch))
      && inputs.ext == OptionalInputDefault(src, SpecifiedInputs(platform, osArch, "ext"), InferExtension(platform))
  {
  }
}
