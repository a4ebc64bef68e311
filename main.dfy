/** The action's entry point (src/main.ts): the release configuration built from the
    inputs, and the find-or-download step against the runner's tool cache.

    The configuration names the tool by `(name, version, arch)`, where `arch` is the
    runner's own architecture, and says where the archive is (the `url` template
    filled with the variables `name`, `version`, `os`, `arch`, `ext`), which
    directory inside it holds the tool (the optional `subdir` template) and how to
    unpack it (by the remapped extension). A tool already in the cache is used as it
    is; any other is downloaded, unpacked and registered in the cache.

    The runner's downloader, extractors, home directory and the directory the cache
    gives each tool are parameters (`Host`); the cache is a map from the tool to its
    directory, and every download, extraction and registration is recorded in a log,
    so that "nothing was downloaded" can be stated. */
module SetupTool {
  import opened Wrappers
  import opened Strings
  import opened Inputs
  import Interpolation

  /** The extractors of the tool-cache library. */
  datatype Extractor = ExtractTar | ExtractZip

  /** `getExtract(ext)`: the extractor for a package extension. The switch falls off
      its end for any other extension, giving `undefined`. */
  function GetExtract(ext: string): (r: Option<Extractor>)
    ensures r.Some? <==> ext == "tar.gz" || ext == "zip"
    ensures r == Some(ExtractZip) <==> ext == "zip"
  {
    if ext == "tar.gz" then Some(ExtractTar)
    else if ext == "zip" then Some(ExtractZip)
    else None
  }

  /** Every extension the inputs module infers for a platform has an extractor. */
  lemma InferredExtensionExtracts(platform: Platform)
    ensures GetExtract(InferExtension(platform)) == if platform == Win32 then Some(ExtractZip) else Some(ExtractTar)
  {
  }

  /** Why setting the tool up fails. */
  datatype SetupError =
    | InputRequired(input: string)
    | UnsupportedValue(name: string, value: string)
    | ExtractNotAFunction
  {
    /** The message names the missing input, or the variable and its unsupported value. */
    function Message(): (r: string)
      ensures InputRequired? ==> Contains(r, input)
      ensures UnsupportedValue? ==> Contains(r, name) && Contains(r, value)
    {
      match this
      case InputRequired(input) =>
        ContainsSelf(input);
        ContainsRight("Input required and not supplied: ", input, input);
        "Input required and not supplied: " + input
      case UnsupportedValue(name, value) =>
        var head := "\n      Unsupported value for ";
        var tail := "\n\n      Please report this to https://github.com/pbrisbin/setup-tool-action/issues.\n    ";
        MentionsBoth(head, name, ": ", value, tail);
        head + name + ": " + value + tail
      case ExtractNotAFunction => "extract is not a function"
    }
  }

  /** `core.getInput(input, { required: true })`: the value, which must be non-empty. */
  function GetRequired(src: Source, input: string): (r: Result<string, SetupError>)
    ensures r.Ok? <==> Present(src(input))
    ensures r.Ok? ==> src(input) == Some(r.value)
    ensures r.Err? ==> r.error == InputRequired(input)
  {
    if Present(src(input)) then Ok(src(input).value) else Err(InputRequired(input))
  }

  /** `core.getInput(input)`: the value, or the empty string when none is given. */
  function GetOptional(src: Source, input: string): (r: string)
    ensures r != "" <==> Present(src(input))
    ensures r != "" ==> src(input) == Some(r)
  {
    match src(input)
    case Some(v) => v
    case None => ""
  }

  /** The input that remaps `value` of the variable `name`. */
  function RemapKey(name: string, value: string): string {
    "remap-" + name + "-" + value
  }

  /** Remap keys of variable names without a `-` are unambiguous: the key gives back
      both the variable and the value. */
  lemma RemapKeyInjective(name1: string, value1: string, name2: string, value2: string)
    requires '-' !in name1 && '-' !in name2
    requires RemapKey(name1, value1) == RemapKey(name2, value2)
    ensures name1 == name2 && value1 == value2
  {
    var k := RemapKey(name1, value1);
    var tail := k[|"remap-"|..];
    assert tail == name1 + ['-'] + value1;
    assert tail == name2 + ['-'] + value2;
    IndexOfAfter(name1, '-', value1);
    IndexOfAfter(name2, '-', value2);
    assert name1 == tail[..|name1|];
    assert value1 == tail[|name1| + 1..];
  }

  /** `remapInput(name, value)`: the value of `remap-{name}-{value}`, which must be
      non-empty. */
  function RemapInput(src: Source, name: string, value: string): (r: Result<string, SetupError>)
    ensures r.Ok? <==> Present(src(RemapKey(name, value)))
    ensures r.Ok? ==> src(RemapKey(name, value)) == Some(r.value)
    ensures r.Err? ==> r.error == UnsupportedValue(name, value)
  {
    var v := GetOptional(src, RemapKey(name, value));
    if v == "" then Err(UnsupportedValue(name, value)) else Ok(v)
  }

  /** What the cache knows a tool by. */
  datatype ToolConfig = ToolConfig(name: string, version: string, arch: Arch)

  /** Where the archive is, which directory inside it holds the tool, and how to
      unpack it (`None` when the extension has no extractor). */
  datatype ArchiveConfig = ArchiveConfig(url: string, subdir: Option<string>, extract: Option<Extractor>)

  datatype ReleaseConfig = ReleaseConfig(tool: ToolConfig, archive: ArchiveConfig)

  /** The variables templates are filled with. */
  function TemplateVars(name: string, version: string, os: string, arch: string, ext: string): (vars: Interpolation.Vars)
    ensures vars.Keys == {"name", "version", "os", "arch", "ext"}
    ensures vars["name"] == name && vars["version"] == version && vars["os"] == os
    ensures vars["arch"] == arch && vars["ext"] == ext
  {
    map["name" := name, "version" := version, "os" := os, "arch" := arch, "ext" := ext]
  }

  /** The five variable names are the kind of key the template scanner is proved
      correct for. */
  lemma TemplateVarsValid(name: string, version: string, os: string, arch: string, ext: string)
    ensures Interpolation.ValidVars(TemplateVars(name, version, os, arch, ext))
  {
    Interpolation.KnownKeysValid();
  }

  /** `mkReleaseConfig(platform, osArch)`. The required inputs are read first, in the
      order `name`, `version`, `url`; then `os`, `arch` and `ext` are remapped. */
  function MkReleaseConfig(src: Source, platform: Platform, osArch: Arch): (r: Result<ReleaseConfig, SetupError>)
    ensures r.Ok? <==>
      && Present(src("name")) && Present(src("version")) && Present(src("url"))
      && Present(src(RemapKey("os", PlatformName(platform))))
      && Present(src(RemapKey("arch", ArchName(osArch))))
      && Present(src(RemapKey("ext", PlatformName(platform))))
    ensures r.Err? ==>
      r.error == (
        if !Present(src("name")) then InputRequired("name")
        else if !Present(src("version")) then InputRequired("version")
        else if !Present(src("url")) then InputRequired("url")
        else if !Present(src(RemapKey("os", PlatformName(platform)))) then UnsupportedValue("os", PlatformName(platform))
        else if !Present(src(RemapKey("arch", ArchName(osArch)))) then UnsupportedValue("arch", ArchName(osArch))
        else UnsupportedValue("ext", PlatformName(platform)))
    ensures r.Ok? ==> r.value.tool == ToolConfig(src("name").value, src("version").value, osArch)
    ensures r.Ok? ==>
      var vars := TemplateVars(src("name").value, src("version").value,
        src(RemapKey("os", PlatformName(platform))).value,
        src(RemapKey("arch", ArchName(osArch))).value,
        src(RemapKey("ext", PlatformName(platform))).value);
      && r.value.archive.url == Interpolation.Interpolate(src("url").value, vars)
      && (r.value.archive.subdir.None? <==> !Present(src("subdir")))
      && (r.value.archive.subdir.Some? ==> r.value.archive.subdir.value == Interpolation.Interpolate(src("subdir").value, vars))
      && r.value.archive.extract == GetExtract(vars["ext"])
  {
    var name :- GetRequired(src, "name");
    var version :- GetRequired(src, "version");
    var urlTemplate :- GetRequired(src, "url");
    var subdirTemplate := GetOptional(src, "subdir");
    var os :- RemapInput(src, "os", PlatformName(platform));
    var arch :- RemapInput(src, "arch", ArchName(osArch));
    var ext :- RemapInput(src, "ext", PlatformName(platform));
    var vars := TemplateVars(name, version, os, arch, ext);
    var url := Interpolation.Interpolate(urlTemplate, vars);
    var subdir := if subdirTemplate != "" then Some(Interpolation.Interpolate(subdirTemplate, vars)) else None;
    Ok(ReleaseConfig(ToolConfig(name, version, osArch), ArchiveConfig(url, subdir, GetExtract(ext))))
  }

  /** The cache key takes the runner's architecture, not its remapped name: two
      sources that differ only in the value `arch` is remapped to give the same tool. */
  lemma ToolKeyIgnoresArchRemap(src1: Source, src2: Source, platform: Platform, osArch: Arch)
    requires forall k | k != RemapKey("arch", ArchName(osArch)) :: src1(k) == src2(k)
    requires Present(src1(RemapKey("arch", ArchName(osArch)))) && Present(src2(RemapKey("arch", ArchName(osArch))))
    ensures MkReleaseConfig(src1, platform, osArch).Ok? <==> MkReleaseConfig(src2, platform, osArch).Ok?
    ensures MkReleaseConfig(src1, platform, osArch).Ok? ==>
      MkReleaseConfig(src1, platform, osArch).value.tool == MkReleaseConfig(src2, platform, osArch).value.tool
  {
    var ko, ke := RemapKey("os", PlatformName(platform)), RemapKey("ext", PlatformName(platform));
    RemapKeysDistinct(PlatformName(platform), ArchName(osArch));
    assert src1("name") == src2("name") && src1("version") == src2("version") && src1("url") == src2("url");
    assert src1(ko) == src2(ko) && src1(ke) == src2(ke);
    SameToolFromSameKeys(src1, src2, platform, osArch);
  }

  lemma SameToolFromSameKeys(src1: Source, src2: Source, platform: Platform, osArch: Arch)
    requires src1("name") == src2("name") && src1("version") == src2("version") && src1("url") == src2("url")
    requires src1(RemapKey("os", PlatformName(platform))) == src2(RemapKey("os", PlatformName(platform)))
    requires src1(RemapKey("ext", PlatformName(platform))) == src2(RemapKey("ext", PlatformName(platform)))
    requires Present(src1(RemapKey("arch", ArchName(osArch)))) && Present(src2(RemapKey("arch", ArchName(osArch))))
    ensures MkReleaseConfig(src1, platform, osArch).Ok? <==> MkReleaseConfig(src2, platform, osArch).Ok?
    ensures MkReleaseConfig(src1, platform, osArch).Ok? ==>
      MkReleaseConfig(src1, platform, osArch).value.tool == MkReleaseConfig(src2, platform, osArch).value.tool
  {
  }

  /** The keys `mkReleaseConfig` reads are pairwise distinct from the `arch` remap key. */
  lemma RemapKeysDistinct(pn: string, an: string)
    ensures var ka := RemapKey("arch", an);
      && RemapKey("os", pn) != ka && RemapKey("ext", pn) != ka
      && "name" != ka && "version" != ka && "url" != ka
  {
    var ka := RemapKey("arch", an);
    if RemapKey("os", pn) == ka {
      RemapKeyInjective("os", pn, "arch", an);
    }
    if RemapKey("ext", pn) == ka {
      RemapKeyInjective("ext", pn, "arch", an);
    }
    assert ka[0] == 'r';
  }

  /** The `arch` variable of the templates is the remapped name: a `url` of `{arch}`
      becomes the value of `remap-arch-<runner arch>`, while the tool keeps the
      runner's architecture. */
  lemma ArchTemplateUsesRemap(src: Source, platform: Platform, osArch: Arch)
    requires MkReleaseConfig(src, platform, osArch).Ok?
    requires src("url") == Some("{arch}")
    ensures MkReleaseConfig(src, platform, osArch).value.archive.url == src(RemapKey("arch", ArchName(osArch))).value
    ensures MkReleaseConfig(src, platform, osArch).value.tool.arch == osArch
  {
    var r := MkReleaseConfig(src, platform, osArch).value;
    var vars := TemplateVars(src("name").value, src("version").value,
      src(RemapKey("os", PlatformName(platform))).value,
      src(RemapKey("arch", ArchName(osArch))).value,
      src(RemapKey("ext", PlatformName(platform))).value);
    ArchTokenFilled(src("url").value, vars);
  }

  /** The template `{arch}` is the value of `arch`. */
  lemma ArchTokenFilled(template: string, vars: Interpolation.Vars)
    requires template == "{arch}" && "arch" in vars
    ensures Interpolation.Interpolate(template, vars) == vars["arch"]
  {
    var t := Interpolation.Slot(0, "arch", 0);
    assert Spaces(0) == "";
    assert t.Text() + "" == template;
    Interpolation.KnownKeysValid();
    Interpolation.TokenReplaced(t, "", vars);
  }

  /** `path.join(a, b)`, without the normalisation of `.` and `..` segments. */
  function JoinPath(a: string, b: string): string {
    a + "/" + b
  }

  /** The directory that holds the tool after extraction: `subdir` inside the
      extracted directory when it is set (and non-empty), else the extracted
      directory itself. */
  function ReleaseFolder(extracted: string, subdir: Option<string>): (r: string)
    ensures subdir.Some? && subdir.value != "" ==> r == JoinPath(extracted, subdir.value)
    ensures subdir.None? || subdir.value == "" ==> r == extracted
  {
    match subdir
    case Some(d) => if d != "" then JoinPath(extracted, d) else extracted
    case None => extracted
  }

  /** The runner's side of the tool cache: the home directory, the downloader (URL to
      the downloaded archive's path), the extractors (archive and destination to the
      extracted directory), and the directory the cache keeps each tool in. */
  datatype Host = Host(
    home: string,
    fetch: string -> string,
    unpack: (Extractor, string, string) -> string,
    place: ToolConfig -> string)

  /** What the host was made to do. */
  datatype Effect =
    | Fetched(url: string)
    | Unpacked(extractor: Extractor, archive: string, dest: string)
    | Registered(folder: string, tool: ToolConfig)

  /** `tc.find(name, version, arch)`: the tool's directory, or the empty string. */
  function Find(dirs: map<ToolConfig, string>, tool: ToolConfig): (r: string)
    ensures tool in dirs ==> r == dirs[tool]
    ensures tool !in dirs ==> r == ""
    ensures r != "" ==> tool in dirs && dirs[tool] == r
  {
    if tool in dirs then dirs[tool] else ""
  }

  /** The result of a step, the cache after it, and what the host was made to do. */
  datatype Outcome = Outcome(result: Result<string, SetupError>, dirs: map<ToolConfig, string>, effects: seq<Effect>)

  /** `download(releaseConfig)`: fetch the archive, unpack it under `~/tmp`, and
      register the release folder under the tool. Without an extractor, the call of
      `extract` fails after the archive has been fetched. */
  function DownloadStep(host: Host, dirs: map<ToolConfig, string>, config: ReleaseConfig): (o: Outcome)
    ensures o.effects != [] && o.effects[0] == Fetched(config.archive.url)
    ensures o.result.Ok? <==> config.archive.extract.Some?
    ensures o.result.Ok? ==> o.result.value == host.place(config.tool) && o.dirs == dirs[config.tool := o.result.value]
    ensures o.result.Err? ==> o.result.error == ExtractNotAFunction && o.dirs == dirs
  {
    var archivePath := host.fetch(config.archive.url);
    var dest := JoinPath(host.home, "tmp");
    match config.archive.extract
    case None => Outcome(Err(ExtractNotAFunction), dirs, [Fetched(config.archive.url)])
    case Some(x) =>
      var extracted := host.unpack(x, archivePath, dest);
      var folder := ReleaseFolder(extracted, config.archive.subdir);
      var dir := host.place(config.tool);
      Outcome(Ok(dir), dirs[config.tool := dir],
        [Fetched(config.archive.url), Unpacked(x, archivePath, dest), Registered(folder, config.tool)])
  }

  /** `findOrDownload(releaseConfig)`: the cached directory when there is one, else a
      download. */
  function FindOrDownloadStep(host: Host, dirs: map<ToolConfig, string>, config: ReleaseConfig): (o: Outcome)
    ensures Find(dirs, config.tool) != "" ==> o == Outcome(Ok(dirs[config.tool]), dirs, [])
    ensures o.result.Ok? ==> config.tool in o.dirs && o.dirs[config.tool] == o.result.value
    ensures o.result.Err? ==> o.dirs == dirs
  {
    var existing := Find(dirs, config.tool);
    if existing != "" then Outcome(Ok(existing), dirs, []) else DownloadStep(host, dirs, config)
  }

  predicate Fetches(effects: seq<Effect>) {
    exists i | 0 <= i < |effects| :: effects[i].Fetched?
  }

  /** The archive is fetched exactly when the tool is not in the cache; a hit leaves
      the cache as it is and returns the cached directory. */
  lemma FetchesOnlyOnMiss(host: Host, dirs: map<ToolConfig, string>, config: ReleaseConfig)
    ensures var o := FindOrDownloadStep(host, dirs, config);
      && (Fetches(o.effects) <==> Find(dirs, config.tool) == "")
      && (Find(dirs, config.tool) != "" ==> o.dirs == dirs && o.result == Ok(dirs[config.tool]))
  {
    var o := FindOrDownloadStep(host, dirs, config);
    if Find(dirs, config.tool) == "" {
      assert o.effects[0].Fetched?;
    }
  }

  /** On a miss with an extractor, the release folder is registered under the tool,
      and the directory the cache gives it is both the result and its new entry. */
  lemma MissRegistersReleaseFolder(host: Host, dirs: map<ToolConfig, string>, config: ReleaseConfig)
    requires Find(dirs, config.tool) == "" && config.archive.extract.Some?
    ensures var o := FindOrDownloadStep(host, dirs, config);
      var extracted := host.unpack(config.archive.extract.value, host.fetch(config.archive.url), JoinPath(host.home, "tmp"));
      && o.result == Ok(host.place(config.tool))
      && o.dirs == dirs[config.tool := host.place(config.tool)]
      && Registered(ReleaseFolder(extracted, config.archive.subdir), config.tool) in o.effects
  {
    var o := FindOrDownloadStep(host, dirs, config);
    assert o.effects[2] in o.effects;
  }

  /** On a miss without an extractor, the archive is fetched and then the step fails,
      leaving the cache as it was. */
  lemma MissWithoutExtractorFails(host: Host, dirs: map<ToolConfig, string>, config: ReleaseConfig)
    requires Find(dirs, config.tool) == "" && config.archive.extract.None?
    ensures var o := FindOrDownloadStep(host, dirs, config);
      o.result == Err(ExtractNotAFunction) && o.dirs == dirs && o.effects == [Fetched(config.archive.url)]
  {
  }

  /** Only the tool's own entry can change. */
  lemma OtherToolsUntouched(host: Host, dirs: map<ToolConfig, string>, config: ReleaseConfig, other: ToolConfig)
    requires other != config.tool
    ensures Find(FindOrDownloadStep(host, dirs, config).dirs, other) == Find(dirs, other)
  {
  }

  /** After a successful step, the same tool is a hit, whatever its archive: a second
      run returns the same directory, downloads nothing and leaves the cache as it is.
      The cache's directories are never empty paths. */
  lemma SecondRunIsHit(host: Host, dirs: map<ToolConfig, string>, first: ReleaseConfig, second: ReleaseConfig)
    requires second.tool == first.tool
    requires host.place(first.tool) != ""
    requires FindOrDownloadStep(host, dirs, first).result.Ok?
    ensures var o1 := FindOrDownloadStep(host, dirs, first);
      FindOrDownloadStep(host, o1.dirs, second) == Outcome(o1.result, o1.dirs, [])
  {
  }

  /** The runner's tool cache: the directory of every cached tool, and the log of
      what has been done to the host. */
  class ToolCache {
    const host: Host
    var dirs: map<ToolConfig, string>
    var log: seq<Effect>

    constructor(host: Host, dirs: map<ToolConfig, string>)
      ensures this.host == host && this.dirs == dirs && log == []
    {
      this.host := host;
      this.dirs := dirs;
      log := [];
    }

    /** `tc.downloadTool(url)`. */
    method DownloadTool(url: string) returns (archivePath: string)
      modifies this
      ensures archivePath == host.fetch(url)
      ensures dirs == old(dirs) && log == old(log) + [Fetched(url)]
    {
      archivePath := host.fetch(url);
      log := log + [Fetched(url)];
    }

    /** `tc.extractTar` / `tc.extractZip`. */
    method Extract(x: Extractor, archivePath: string, dest: string) returns (extracted: string)
      modifies this
      ensures extracted == host.unpack(x, archivePath, dest)
      ensures dirs == old(dirs) && log == old(log) + [Unpacked(x, archivePath, dest)]
    {
      extracted := host.unpack(x, archivePath, dest);
      log := log + [Unpacked(x, archivePath, dest)];
    }

    /** `tc.cacheDir(folder, name, version, arch)`. */
    method CacheDir(folder: string, tool: ToolConfig) returns (dir: string)
      modifies this
      ensures dir == host.place(tool)
      ensures dirs == old(dirs)[tool := dir] && log == old(log) + [Registered(folder, tool)]
    {
      dir := host.place(tool);
      dirs := dirs[tool := dir];
      log := log + [Registered(folder, tool)];
    }

    /** `download(releaseConfig)`. */
    method Download(config: ReleaseConfig) returns (r: Result<string, SetupError>)
      modifies this
      ensures var o := DownloadStep(host, old(dirs), config);
        r == o.result && dirs == o.dirs && log == old(log) + o.effects
    {
      var archivePath := DownloadTool(config.archive.url);
      var dest := JoinPath(host.home, "tmp");
      if config.archive.extract.None? {
        return Err(ExtractNotAFunction);
      }
      var extracted := Extract(config.archive.extract.value, archivePath, dest);
      var folder := ReleaseFolder(extracted, config.archive.subdir);
      var dir := CacheDir(folder, config.tool);
      r := Ok(dir);
    }

    /** `findOrDownload(releaseConfig)`. */
    method FindOrDownload(config: ReleaseConfig) returns (r: Result<string, SetupError>)
      modifies this
      ensures var o := FindOrDownloadStep(host, old(dirs), config);
        r == o.result && dirs == o.dirs && log == old(log) + o.effects
    {
      var existing := Find(dirs, config.tool);
      if existing != "" {
        return Ok(existing);
      }
      r := Download(config);
    }
  }
}
