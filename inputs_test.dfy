/** The expectations of src/inputs.test.ts, stated about the `Inputs` model. Each test
    gives an input source as a function from input name to value and checks the inputs
    resolved on one or two hosts. */
module InputsTest {
  import opened Wrappers
  import opened Inputs

  /** Spells out the candidate list on one host, so that the solver sees its four
      literal names. */
  lemma Spelled(platform: Platform, arch: Arch, input: string, p: string, a: string)
    requires p == PlatformName(platform) && a == ArchName(arch)
    ensures SpecifiedInputs(platform, arch, input) == [input + "-" + p + "-" + a, input + "-" + a, input + "-" + p, input]
  {
  }

  /** The input source of the source's tests: only `name`, `version`, `url` and
      `github-token-for-latest` are given. */
  function DefaultInput(input: string): Option<string> {
    if input == "name" then Some("tool")
    else if input == "version" then Some("0.0.0")
    else if input == "url" then Some("https://example.com")
    else if input == "github-token-for-latest" then Some("xxx")
    else None
  }

  lemma CandidateStart(platform: Platform, arch: Arch, input: string, i: nat)
    requires input != [] && i < 4
    ensures SpecifiedInputs(platform, arch, input)[i] != []
    ensures SpecifiedInputs(platform, arch, input)[i][0] == input[0]
  {
    var keys := SpecifiedInputs(platform, arch, input);
    if i < 3 {
      assert keys[i][..|input| + 1][0] == (input + "-")[0];
    }
  }

  lemma DefaultAbsent(k: string)
    requires k != [] && k[0] in "soae"
    ensures DefaultInput(k) == None
  {
  }

  /** DefaultInput gives no input whose candidates start like `subdir`, `os`, `arch`
      or `ext`, on any host. */
  lemma DefaultCascadeAbsent(platform: Platform, arch: Arch, input: string)
    requires input != [] && input[0] in "soae"
    ensures NonePresent(DefaultInput, SpecifiedInputs(platform, arch, input))
  {
    var keys := SpecifiedInputs(platform, arch, input);
    forall i | 0 <= i < 4 ensures DefaultInput(keys[i]) == None {
      CandidateStart(platform, arch, input, i);
      DefaultAbsent(keys[i]);
    }
  }

  /** DefaultInput gives only the plain `url`, so every host falls back to it. */
  lemma DefaultUrl(platform: Platform, arch: Arch)
    ensures FirstPresent(DefaultInput, SpecifiedInputs(platform, arch, "url")) == Some("https://example.com")
  {
    var keys := SpecifiedInputs(platform, arch, "url");
    forall i | 0 <= i < 3 ensures DefaultInput(keys[i]) == None {
      CandidateStart(platform, arch, "url", i);
      QualifiedAbsent(keys[i]);
    }
    FirstPresentIsFirst(DefaultInput, keys, 3);
  }

  /** DefaultInput gives nothing for a name longer than `url` that starts like it. */
  lemma QualifiedAbsent(k: string)
    requires |k| > 3 && k[0] == 'u'
    ensures DefaultInput(k) == None
  {
  }

  /** The source's first test: on darwin/arm, with only the plain inputs given, every
      other input takes its default. */
  lemma OnlyUrlSpecified(platform: Platform, arch: Arch)
    requires platform == Darwin && arch == Arm
    ensures var inputs := GetInputs(platform, arch, DefaultInput);
      && inputs.Ok?
      && inputs.value.name == "tool" && inputs.value.version == "0.0.0"
      && inputs.value.url == "https://example.com" && inputs.value.subdir == None
      && inputs.value.os == "darwin" && inputs.value.arch == "arm" && inputs.value.ext == "tar.gz"
  {
    RequiredGiven(platform, arch, DefaultInput);
    CascadedFields(platform, arch, DefaultInput);
    DefaultUrl(platform, arch);
    DefaultCascadesAbsent(platform, arch);
    DefaultsWhenNotGiven(platform, arch, DefaultInput);
  }

  /** DefaultInput gives none of the cascaded optional inputs, on any host. */
  lemma DefaultCascadesAbsent(platform: Platform, arch: Arch)
    ensures NonePresent(DefaultInput, SpecifiedInputs(platform, arch, "subdir"))
    ensures NonePresent(DefaultInput, SpecifiedInputs(platform, arch, "os"))
    ensures NonePresent(DefaultInput, SpecifiedInputs(platform, arch, "arch"))
    ensures NonePresent(DefaultInput, SpecifiedInputs(platform, arch, "ext"))
  {
    DefaultCascadeAbsent(platform, arch, "subdir");
    DefaultCascadeAbsent(platform, arch, "os");
    DefaultCascadeAbsent(platform, arch, "arch");
    DefaultCascadeAbsent(platform, arch, "ext");
  }

  function UrlByPlatform(input: string): Option<string> {
    if input == "url-linux" then Some("https://example-linux.com") else DefaultInput(input)
  }

  lemma UrlByPlatformOnDarwin(platform: Platform, arch: Arch)
    requires platform == Darwin && arch == Arm
    ensures FirstPresent(UrlByPlatform, SpecifiedInputs(platform, arch, "url")) == Some("https://example.com")
  {
    var keys := SpecifiedInputs(platform, arch, "url");
    Spelled(platform, arch, "url", "darwin", "arm");
    assert keys[0] == "url-darwin-arm" && keys[1] == "url-arm" && keys[2] == "url-darwin";
    assert UrlByPlatform("url-darwin-arm") == UrlByPlatform("url-arm") == UrlByPlatform("url-darwin") == None;
    FirstPresentIsFirst(UrlByPlatform, keys, 3);
  }

  lemma UrlByPlatformOnLinux(platform: Platform, arch: Arch)
    requires platform == Linux && arch == X64
    ensures FirstPresent(UrlByPlatform, SpecifiedInputs(platform, arch, "url")) == Some("https://example-linux.com")
  {
    var keys := SpecifiedInputs(platform, arch, "url");
    Spelled(platform, arch, "url", "linux", "x64");
    assert keys[0] == "url-linux-x64" && keys[1] == "url-x64" && keys[2] == "url-linux";
    assert UrlByPlatform("url-linux-x64") == UrlByPlatform("url-x64") == None;
    FirstPresentIsFirst(UrlByPlatform, keys, 2);
  }

  /** The source's second test: `url-linux` applies on linux and only there. */
  lemma UrlOverriddenByPlatform(darwin: Platform, arm: Arch, linux: Platform, x64: Arch)
    requires darwin == Darwin && arm == Arm && linux == Linux && x64 == X64
    ensures GetInputs(darwin, arm, UrlByPlatform).Ok?
    ensures GetInputs(darwin, arm, UrlByPlatform).value.url == "https://example.com"
    ensures GetInputs(linux, x64, UrlByPlatform).Ok?
    ensures GetInputs(linux, x64, UrlByPlatform).value.url == "https://example-linux.com"
  {
    RequiredGiven(darwin, arm, UrlByPlatform);
    CascadedFields(darwin, arm, UrlByPlatform);
    UrlByPlatformOnDarwin(darwin, arm);
    RequiredGiven(linux, x64, UrlByPlatform);
    CascadedFields(linux, x64, UrlByPlatform);
    UrlByPlatformOnLinux(linux, x64);
  }

  function ArchRemapped(input: string): Option<string> {
    if input == "arch" then Some("x86_64")
    else if input == "arch-darwin-x64" then Some("arm")
    else DefaultInput(input)
  }

  lemma ArchRemappedOnDarwin(platform: Platform, arch: Arch)
    requires platform == Darwin && arch == X64
    ensures OptionalInputDefault(ArchRemapped, SpecifiedInputs(platform, arch, "arch"), "x64") == "arm"
  {
    var keys := SpecifiedInputs(platform, arch, "arch");
    Spelled(platform, arch, "arch", "darwin", "x64");
    assert keys[0] == "arch-darwin-x64";
    FirstPresentIsFirst(ArchRemapped, keys, 0);
  }

  lemma ArchRemappedOnLinux(platform: Platform, arch: Arch)
    requires platform == Linux && arch == X64
    ensures OptionalInputDefault(ArchRemapped, SpecifiedInputs(platform, arch, "arch"), "x64") == "x86_64"
  {
    var keys := SpecifiedInputs(platform, arch, "arch");
    Spelled(platform, arch, "arch", "linux", "x64");
    assert keys[0] == "arch-linux-x64" && keys[1] == "arch-x64" && keys[2] == "arch-linux";
    assert ArchRemapped("arch-linux-x64") == ArchRemapped("arch-x64") == ArchRemapped("arch-linux") == None;
    FirstPresentIsFirst(ArchRemapped, keys, 3);
  }

  /** The source's third test: `arch-darwin-x64` beats `arch` on darwin/x64, and
      `arch` applies on linux/x64. */
  lemma ArchRemappedBySpecificity(darwin: Platform, linux: Platform, x64: Arch)
    requires darwin == Darwin && linux == Linux && x64 == X64
    ensures GetInputs(darwin, x64, ArchRemapped).Ok?
    ensures GetInputs(darwin, x64, ArchRemapped).value.arch == "arm"
    ensures GetInputs(linux, x64, ArchRemapped).Ok?
    ensures GetInputs(linux, x64, ArchRemapped).value.arch == "x86_64"
  {
    RequiredGiven(darwin, x64, ArchRemapped);
    CascadedFields(darwin, x64, ArchRemapped);
    ArchRemappedOnDarwin(darwin, x64);
    RequiredGiven(linux, x64, ArchRemapped);
    CascadedFields(linux, x64, ArchRemapped);
    ArchRemappedOnLinux(linux, x64);
  }

  function ArchByPlatform(input: string): Option<string> {
    if input == "arch-linux-x64" then Some("amd64")
    else if input == "arch-win32-x64" then Some("x86_64")
    else DefaultInput(input)
  }

  lemma ArchByPlatformOnDarwin(platform: Platform, arch: Arch)
    requires platform == Darwin && arch == Arm
    ensures OptionalInputDefault(ArchByPlatform, SpecifiedInputs(platform, arch, "arch"), "arm") == "arm"
  {
    var keys := SpecifiedInputs(platform, arch, "arch");
    Spelled(platform, arch, "arch", "darwin", "arm");
    assert keys[0] == "arch-darwin-arm" && keys[1] == "arch-arm" && keys[2] == "arch-darwin" && keys[3] == "arch";
    assert ArchByPlatform("arch-darwin-arm") == ArchByPlatform("arch-arm") == None;
    assert ArchByPlatform("arch-darwin") == ArchByPlatform("arch") == None;
    assert NonePresent(ArchByPlatform, keys);
  }

  lemma ArchByPlatformOnLinux(platform: Platform, arch: Arch)
    requires platform == Linux && arch == X64
    ensures OptionalInputDefault(ArchByPlatform, SpecifiedInputs(platform, arch, "arch"), "x64") == "amd64"
  {
    var keys := SpecifiedInputs(platform, arch, "arch");
    Spelled(platform, arch, "arch", "linux", "x64");
    assert keys[0] == "arch-linux-x64";
    assert ArchByPlatform(keys[0]) == Some("amd64");
    FirstPresentIsFirst(ArchByPlatform, keys, 0);
  }

  lemma ArchByPlatformOnWin32(platform: Platform, arch: Arch)
    requires platform == Win32 && arch == X64
    ensures OptionalInputDefault(ArchByPlatform, SpecifiedInputs(platform, arch, "arch"), "x64") == "x86_64"
  {
    var keys := SpecifiedInputs(platform, arch, "arch");
    Spelled(platform, arch, "arch", "win32", "x64");
    assert keys[0] == "arch-win32-x64";
    assert ArchByPlatform(keys[0]) == Some("x86_64");
    FirstPresentIsFirst(ArchByPlatform, keys, 0);
  }

  /** The source's fourth test: a platform-and-architecture override applies to that
      pair only. */
  lemma ArchRemappedByPlatform(darwin: Platform, linux: Platform, win32: Platform, arm: Arch, x64: Arch)
    requires darwin == Darwin && linux == Linux && win32 == Win32 && arm == Arm && x64 == X64
    ensures GetInputs(darwin, arm, ArchByPlatform).Ok?
    ensures GetInputs(darwin, arm, ArchByPlatform).value.arch == "arm"
    ensures GetInputs(linux, x64, ArchByPlatform).Ok?
    ensures GetInputs(linux, x64, ArchByPlatform).value.arch == "amd64"
    ensures GetInputs(win32, x64, ArchByPlatform).Ok?
    ensures GetInputs(win32, x64, ArchByPlatform).value.arch == "x86_64"
  {
    ArchByPlatformOnDarwin(darwin, arm);
    ArchRemappedOn(darwin, arm, "arm");
    ArchByPlatformOnLinux(linux, x64);
    ArchRemappedOn(linux, x64, "amd64");
    ArchByPlatformOnWin32(win32, x64);
    ArchRemappedOn(win32, x64, "x86_64");
  }

  /** On a host where the `arch` cascade of the fourth test resolves to `expected`, the
      inputs resolve, with `expected` as the architecture. */
  lemma ArchRemappedOn(platform: Platform, arch: Arch, expected: string)
    requires OptionalInputDefault(ArchByPlatform, SpecifiedInputs(platform, arch, "arch"), ArchName(arch)) == expected
    ensures GetInputs(platform, arch, ArchByPlatform).Ok?
    ensures GetInputs(platform, arch, ArchByPlatform).value.arch == expected
  {
    RequiredGiven(platform, arch, ArchByPlatform);
    CascadedFields(platform, arch, ArchByPlatform);
  }

  function ExtByPlatform(input: string): Option<string> {
    if input == "ext-win32" then Some("7z") else DefaultInput(input)
  }

  lemma ExtByPlatformOnLinux(platform: Platform, arch: Arch)
    requires platform == Linux && arch == X64
    ensures OptionalInputDefault(ExtByPlatform, SpecifiedInputs(platform, arch, "ext"), "tar.gz") == "tar.gz"
  {
    var keys := SpecifiedInputs(platform, arch, "ext");
    Spelled(platform, arch, "ext", "linux", "x64");
    assert keys[0] == "ext-linux-x64" && keys[1] == "ext-x64" && keys[2] == "ext-linux" && keys[3] == "ext";
    assert ExtByPlatform("ext-linux-x64") == ExtByPlatform("ext-x64") == None;
    assert ExtByPlatform("ext-linux") == ExtByPlatform("ext") == None;
    assert NonePresent(ExtByPlatform, keys);
  }

  lemma ExtByPlatformOnWin32(platform: Platform, arch: Arch)
    requires platform == Win32 && arch == X64
    ensures OptionalInputDefault(ExtByPlatform, SpecifiedInputs(platform, arch, "ext"), "zip") == "7z"
  {
    var keys := SpecifiedInputs(platform, arch, "ext");
    Spelled(platform, arch, "ext", "win32", "x64");
    assert keys[0] == "ext-win32-x64" && keys[1] == "ext-x64" && keys[2] == "ext-win32";
    assert ExtByPlatform("ext-win32-x64") == ExtByPlatform("ext-x64") == None;
    FirstPresentIsFirst(ExtByPlatform, keys, 2);
  }

  /** The source's fifth test: `ext-win32` beats the inferred `zip` on win32, and
      linux keeps the inferred `tar.gz`. */
  lemma ExtRemappedByPlatform(linux: Platform, win32: Platform, x64: Arch)
    requires linux == Linux && win32 == Win32 && x64 == X64
    ensures GetInputs(linux, x64, ExtByPlatform).Ok?
    ensures GetInputs(linux, x64, ExtByPlatform).value.ext == "tar.gz"
    ensures GetInputs(win32, x64, ExtByPlatform).Ok?
    ensures GetInputs(win32, x64, ExtByPlatform).value.ext == "7z"
  {
    RequiredGiven(linux, x64, ExtByPlatform);
    CascadedFields(linux, x64, ExtByPlatform);
    ExtByPlatformOnLinux(linux, x64);
    RequiredGiven(win32, x64, ExtByPlatform);
    CascadedFields(win32, x64, ExtByPlatform);
    ExtByPlatformOnWin32(win32, x64);
  }
}
