# setup-tool-action, modelled in Dafny

`setup-tool-action` is a GitHub Action that installs a command-line tool on a
runner. Its entry point (src/main.ts) reads the inputs `name`, `version`, `url`
and `subdir` as they are given. It maps the runner's platform and architecture
through the `remap-os-<platform>`, `remap-arch-<arch>` and `remap-ext-<platform>`
inputs. It fills the URL and subdir templates with `{name}`, `{version}`, `{os}`,
`{arch}` and `{ext}`.

If the runner's tool cache already holds the tool under `(name, version, arch)`,
that directory is used. Otherwise the archive at the URL is downloaded, with no
credentials, and unpacked. The directory holding the tool is then registered in
the cache. That directory is the extracted one, or `subdir` inside it.

The repository holds two more pieces of logic that the entry point does not call:

- `getInputs` (src/inputs.ts) resolves every input through a cascade of
  platform- and architecture-specific names (`url-linux-x64`, `url-x64`,
  `url-linux`, `url`), with defaults for `os`, `arch` and `ext`.
- `findReleaseAsset` (src/github.ts) turns a github.com release-asset URL into an
  authenticated GitHub API download.

The modules `Inputs` and `GitHub` model these two functions as written. Nothing in
`SetupTool` uses them.

The model has one module per source file, and one per test file:

| file | module | models |
|---|---|---|
| `wrappers.dfy` | `Wrappers` | `Option` and `Result` |
| `strings.dfy` | `Strings` | string helpers: spaces, `indexOf`, joining with `,` |
| `interpolate.dfy` | `Interpolation` | `interpolate(str, vars)` (src/interpolate.ts) |
| `inputs.dfy` | `Inputs` | `getInputs` and its resolvers (src/inputs.ts) |
| `github_asset_url.dfy` | `AssetUrl` | `toGitHubAssetUrl` (src/github-asset-url.ts, and its copy in src/github.ts) |
| `github.dfy` | `GitHub` | `findReleaseAsset` (src/github.ts) |
| `interpolate_test.dfy` | `InterpolationTest` | the expectations of src/interpolate.test.ts |
| `inputs_test.dfy` | `InputsTest` | the expectations of src/inputs.test.ts |
| `github_asset_url_test.dfy` | `AssetUrlTest` | the expectations of src/github.test.ts about `toGitHubAssetUrl` |
| `main.dfy` | `SetupTool` | `getExtract`, `remapInput`, `mkReleaseConfig`, `download`, `findOrDownload` (src/main.ts) |

Conventions used throughout:

- `core.getInput` is a parameter `Source = string -> Option<string>`.
- JavaScript's truthiness test on an input value is `Present`: the value exists
  and is not empty.
- The GitHub API request and the runner's downloader, extractors, home directory
  and cache layout are parameters too: `GitHub.ReleaseRequest` and
  `SetupTool.Host`.
- The template scanner is a recursive function. At a `{` it takes the text up to
  the first `}`, trims the spaces on both sides, and replaces the token when the
  trimmed key is a variable.
  - `InterpolateIsLeftmostFill` proves that the result is the leftmost,
    non-overlapping replacement of the matched tokens.
  - `SlotAtIsRegexMatch` and `ScanIsRegexLeftmost` prove that the tokens matched
    are those of the global regular expression `{ *(k1|k2|...) *}`, defined on its
    own as a token of a variable's key spelled at a position.
  - That proof assumes the keys are word-like, as the action's five keys are.
- `findOrDownload` and `download` are methods of the class `SetupTool.ToolCache`.
  - Its field `dirs` maps each tool triple to its directory.
  - Its field `log` records every download, extraction and registration.
  - Each method is proved against a pure step function (`DownloadStep`,
    `FindOrDownloadStep`), and the cache properties are proved about those.

## Model

| member | source | states |
|---|---|---|
| Interpolation.Interpolate | src/interpolate.ts:2-8 | `interpolate(str, vars)`: text without `{` comes back unchanged, and so does every text when there are no variables |
| Interpolation.TokenAt | src/interpolate.ts:4 | a token found at the start of the text spans `{`, the trimmed key with its spaces, and `}`; its key has no `}` |
| Interpolation.SlotAt | src/interpolate.ts:3-4 | a token matches only when its key is one of the variables, and it is exactly the text at that position |
| Interpolation.TrimBody | src/interpolate.ts:4 | the ` *` on each side of the key: trimming a token's body gives back its leading spaces, key and trailing spaces |
| Interpolation.TokenAtText | src/interpolate.ts:4 | a token written with any spaces around a valid key is recognised as that token |
| Interpolation.TokenReplaced | src/interpolate.ts:4-7 | a token whose key is a variable becomes the value, and scanning resumes after the token, never inside the value |
| Interpolation.UnknownTokenKept | src/interpolate.ts:4-5 | a token whose key is not a variable is copied character for character |
| Interpolation.BraceFreeKept | src/interpolate.ts:4-7 | text without `{` is copied unchanged |
| Interpolation.NoMatchIdentity | src/interpolate.ts:5-7 | a template where no position starts a matched token comes back unchanged |
| Interpolation.EmptyVarsIdentity | src/interpolate.ts:3-7 | with no variables every template comes back unchanged |
| Interpolation.ScanDecomposes | src/interpolate.ts:4-5 | the template splits into literal characters and matched tokens, left to right, taking a token wherever one matches |
| Interpolation.FillIsInterpolate | src/interpolate.ts:4-7 | for any such split, the result is the characters with every token replaced by its variable's value |
| Interpolation.InterpolateIsLeftmostFill | src/interpolate.ts:4-7 | interpolation is the leftmost, non-overlapping replacement of every matched token, which is the semantics of a global `replace` |
| Interpolation.SlotAtIsRegexMatch | src/interpolate.ts:3-4 | the scanner finds a token at a position exactly when the regular expression built from the keys (`{`, spaces, one of the keys, spaces, `}`) matches there, defined as some token of a variable's key being spelled at that position |
| Interpolation.ScanIsRegexLeftmost | src/interpolate.ts:4-5 | the regular expression matches at no position the scan copies as a literal character, so the split is the leftmost one in the expression's own terms |
| Interpolation.ThreeTokens | src/interpolate.ts:4-7 | in text, known token, `/`, known token, `/`, unknown token, both known tokens are replaced and the unknown one is kept |
| InterpolationTest.LeavesUnusedAlone | src/interpolate.test.ts:4-9 | `https://example.com/{name}/{value}/{unused}` becomes `https://example.com/my-name/my-value/{unused}` |
| InterpolationTest.WhitespaceInsensitive | src/interpolate.test.ts:11-16 | `{ name}` and `{value  }` are replaced like `{name}` and `{value}` |
| InterpolationTest.UnsafeTemplateUnchanged | src/interpolate.test.ts:18-22 | `Can I ${this}?` is returned unchanged by any variables without `this` |
| Interpolation.SinglePass | src/interpolate.ts:5-7 | a value that looks like a token is inserted as it is, not replaced again |
| Inputs.SpecifiedInputs | src/inputs.ts:81-92 | four candidates, the last the input itself, the first the platform candidate followed by `-` and the architecture |
| Inputs.CandidateShapes | src/inputs.ts:81-92 | the candidates are `input-platform-arch`, `input-arch`, `input-platform`, `input`, in that order |
| Inputs.CandidatesDistinct | src/inputs.ts:81-92 | the four candidates are pairwise distinct names |
| Inputs.FirstPresent | src/inputs.ts:95 | `map(getInput).find(x => x)`: no value exactly when no candidate has one, and otherwise the value of the first candidate that has one |
| Inputs.FirstPresentIsFirst | src/inputs.ts:95 | the value of the first candidate with a value is the one resolved |
| Inputs.RequireInput | src/inputs.ts:94-107 | fails, naming the candidates, exactly when none has a value, and otherwise gives the first non-empty value |
| Inputs.InputError.Message | src/inputs.ts:97-101 | the message of a missing input names every candidate |
| Strings.JoinComma | src/inputs.ts:101 | an array of strings as JavaScript prints it: empty for no elements, starting with the first element, a `,` after it when there are more, and containing every element |
| Inputs.MissingInputMessages | src/inputs.ts:98-101 | the messages are `You must supply the name input` and `You must supply one of github-token,github-token-for-latest as an input` |
| Inputs.OptionalInput | src/inputs.ts:109-112 | `null` exactly when no candidate has a value, and otherwise the first non-empty value |
| Inputs.OptionalInputDefault | src/inputs.ts:114-121 | the default exactly when no candidate has a value, and otherwise the first non-empty value |
| Inputs.MostSpecificWins | src/inputs.ts:81-92 | a value for `input-platform-arch` beats every other candidate and the default |
| Inputs.InferExtension | src/inputs.ts:123-130 | `zip` exactly on `win32`, and `tar.gz` everywhere else |
| Inputs.GetInputs | src/inputs.ts:47-79 | fails exactly when `name`, every `url` candidate, or both token inputs are missing, reporting them in that order; otherwise `name`, `version`, `noExtract` and `githubToken` are as given |
| Inputs.RequiredGiven | src/inputs.ts:53-55 | with `name`, `url` and `github-token-for-latest` given, `getInputs` succeeds |
| Inputs.CascadedFields | src/inputs.ts:55-71 | each of `url`, `subdir`, `os`, `arch`, `ext` is resolved over its own four candidates, with the host platform, host architecture and inferred extension as defaults |
| Inputs.DefaultsWhenNotGiven | src/inputs.ts:56-71 | with nothing given for them, `subdir` is `null`, and `os`, `arch` and `ext` are the platform, the architecture and the inferred extension |
| Inputs.TokenForLatestPrefersToken | src/inputs.ts:73-77 | `githubTokenForLatest` is `github-token` when that is non-empty, else `github-token-for-latest` |
| InputsTest.OnlyUrlSpecified | src/inputs.test.ts:19-37 | with only the default inputs on darwin/arm: `tool`, `0.0.0`, `https://example.com`, no subdir, `darwin`, `arm`, `tar.gz` |
| InputsTest.UrlOverriddenByPlatform | src/inputs.test.ts:39-56 | `url-linux` is used on linux/x64 and not on darwin/arm |
| InputsTest.ArchRemappedBySpecificity | src/inputs.test.ts:58-77 | `arch-darwin-x64` beats `arch` on darwin/x64, and `arch` applies on linux/x64 |
| InputsTest.ArchRemappedByPlatform | src/inputs.test.ts:79-100 | `arch-linux-x64` and `arch-win32-x64` apply on their own hosts only |
| InputsTest.ExtRemappedByPlatform | src/inputs.test.ts:102-119 | `ext-win32` overrides the inferred `zip` on win32, and linux keeps `tar.gz` |
| AssetUrl.Segment | src/github-asset-url.ts:12-13 | `/([^/]+)` followed by `/`: a non-empty, `/`-free segment, and the text after it exactly |
| AssetUrl.Parse | src/github-asset-url.ts:8-32 | on success the parts are well formed (owner, repo and tag non-empty and `/`-free, name non-empty without line terminators), and the URL is exactly the host followed by `/owner/repo/releases/download/tag/name` |
| AssetUrl.PrintThenParse | src/github-asset-url.ts:9-18 | a URL built from well-formed parts parses back to the same four parts |
| AssetUrl.ParseIff | src/github-asset-url.ts:8-32 | the URL parses to the parts exactly when it is those well-formed parts rendered behind the host |
| AssetUrl.HostDotIsWildcard | src/github-asset-url.ts:11 | the unescaped `.` of `github.com` matches any character but a line terminator, so `https://githubXcom/...` parses too |
| AssetUrlTest.SpelledIsRendered | src/github-asset-url.ts:11-16 | the URL written out as in the tests is the rendered URL with `.` at the host dot |
| AssetUrlTest.ParsesReleaseAsset | src/github.test.ts:4-18 | the `pbrisbin/litx` release-asset URL parses to owner `pbrisbin`, repo `litx`, tag `v0.0.0.2` and name `litx-x86_64-linux.tar.gz` |
| AssetUrl.OtherHostRejected | src/github.test.ts:20-27 | no URL on `githubx.com` parses |
| AssetUrl.NonReleaseRejected | src/github-asset-url.ts:14 | a github.com URL whose path does not continue with `/releases/download` after owner and repo does not parse |
| AssetUrlTest.TreeUrlRejected | src/github.test.ts:29-36 | the `pbrisbin/litx/tree/main/assets/...` URL does not parse |
| GitHub.FindAsset | src/github.ts:43-45 | `assets.find(...)`: nothing exactly when no asset has the name, and otherwise the first asset in list order that has it |
| GitHub.FindAssetIsFirst | src/github.ts:43-45 | the first asset with the name is the one found |
| GitHub.FindReleaseAsset | src/github.ts:11-59 | an unparsed URL is downloaded as given; a failed request's error is the result; the download is anonymous exactly when no asset of the release has the URL's name; otherwise the URL is that of the first matching asset of the parsed release, with auth `token <token>` and an octet-stream `Accept` header |
| GitHub.KeyedByParsedRelease | src/github.ts:26-35 | the result depends on the API only through the release of the parsed owner, repo and tag |
| GitHub.FirstMatchDownloaded | src/github.ts:43-58 | when the release has assets with the URL's name, the first one is downloaded with the token and the octet-stream header |
| GitHub.NoMatchAnonymous | src/github.ts:47-50 | when no asset has the URL's name, the URL is downloaded as given, without auth and headers |
| GitHub.RenderedUrlLooksUpItsRelease | src/github.ts:15-58 | for a URL built from well-formed parts, the release asked for is the one those parts name |
| SetupTool.GetExtract | src/main.ts:34-49 | an extractor exactly for `tar.gz` and `zip`, the zip one exactly for `zip`, and none for any other extension |
| SetupTool.InferredExtensionExtracts | src/main.ts:34-49 | every extension `inferExtension` gives has an extractor: zip on `win32`, tar everywhere else. The entry point does not use `inferExtension`: it takes `ext` from `remap-ext-<platform>` (src/main.ts:90) |
| SetupTool.GetRequired | src/main.ts:83-85 | a required input is its non-empty value, or fails naming the input |
| SetupTool.GetOptional | src/main.ts:86 | an optional input is non-empty exactly when a value is given |
| SetupTool.RemapInput | src/main.ts:68-80 | the value of `remap-<name>-<value>` when it is non-empty, and otherwise `Unsupported value for <name>: <value>` |
| SetupTool.SetupError.Message | src/main.ts:72-76 | the message of an unsupported value names the variable and the value, and that of a missing required input names the input |
| SetupTool.RemapKeyInjective | src/main.ts:69 | for variable names without `-`, a remap key determines both the variable and the value |
| SetupTool.TemplateVars | src/main.ts:92 | the template variables are exactly `name`, `version`, `os`, `arch` and `ext`, with the given values |
| SetupTool.TemplateVarsValid | src/main.ts:92-93 | those five names are keys the template scanner is proved correct for |
| SetupTool.MkReleaseConfig | src/main.ts:82-110 | succeeds exactly when the three required inputs and the three remaps are given, and otherwise fails at the first missing one in source order. On success: the tool is `(name, version, host arch)`; the url is the interpolated `url` template; `subdir` is `null` exactly when no subdir template is given, and otherwise its interpolation; the extractor is that of the remapped extension |
| SetupTool.ToolKeyIgnoresArchRemap | src/main.ts:88-103 | the cache key uses the runner's architecture: changing what `arch` is remapped to does not change the tool |
| SetupTool.ArchTemplateUsesRemap | src/main.ts:89-103 | a `url` of `{arch}` becomes the remapped architecture while the tool keeps the runner's |
| SetupTool.ReleaseFolder | src/main.ts:118 | `subdir` inside the extracted directory when `subdir` is non-empty, else the extracted directory |
| SetupTool.Find | src/main.ts:125 | `tc.find`: a cached tool's directory when the tool is in the cache, and the empty string otherwise |
| SetupTool.DownloadStep | src/main.ts:112-120 | the archive is fetched first; the step succeeds exactly when there is an extractor, and then its result is the cache's directory for the tool, which is the tool's new entry; otherwise it fails with the `extract` call and the cache is unchanged |
| SetupTool.FindOrDownloadStep | src/main.ts:122-137 | a cached tool is returned with no effect and the cache unchanged; after success the cache maps the tool to the result; a failure leaves the cache unchanged |
| SetupTool.FetchesOnlyOnMiss | src/main.ts:125-136 | the archive is fetched exactly when the tool is not cached; a hit returns the cached directory and leaves the cache unchanged |
| SetupTool.MissRegistersReleaseFolder | src/main.ts:115-135 | on a miss the release folder is registered under the tool triple, and the cache's directory for it is both the result and the new entry |
| SetupTool.MissWithoutExtractorFails | src/main.ts:107-117 | without an extractor the archive is fetched and then the call of `extract` fails, leaving the cache unchanged |
| SetupTool.OtherToolsUntouched | src/main.ts:119 | no other tool's cache entry changes |
| SetupTool.SecondRunIsHit | src/main.ts:119-129 | after a successful run, a second run for the same tool, with any archive, is a hit: same directory, no download, cache unchanged |
| SetupTool.ToolCache.DownloadTool | src/main.ts:115 | `tc.downloadTool`: the host's archive path; only the log grows, by the fetch |
| SetupTool.ToolCache.Extract | src/main.ts:117 | the extractor's directory; only the log grows, by the extraction |
| SetupTool.ToolCache.CacheDir | src/main.ts:119 | the cache's directory for the tool, now recorded for the tool, and the registration logged |
| SetupTool.ToolCache.Download | src/main.ts:112-120 | result, new cache and new log are those of `DownloadStep` on the old cache |
| SetupTool.ToolCache.FindOrDownload | src/main.ts:122-137 | result, new cache and new log are those of `FindOrDownloadStep` on the old cache |

## Left out

- Interpolation: the `new Function` evaluation of a template literal is not
  modelled, only the substitution it performs.
  - Its JavaScript quirks are therefore absent: only the first `${` is escaped,
    backslashes and backticks are reinterpreted, and `{}` with no variables
    produces invalid code.
  - Keys are word-like (`ValidKey`), as the action's five are; the lemmas about
    the regular expression require that.
- InterpolationTest.LeavesUnusedAlone, InterpolationTest.WhitespaceInsensitive,
  InputsTest.OnlyUrlSpecified and the other example lemmas take the test's
  template, variables, platform or architecture as parameters fixed by
  `requires`, rather than as literals inside the `ensures`.
- Inputs and SetupTool: `core.getInput` is a parameter.
  - Its trimming of whitespace belongs to the library.
  - So does its own `{ required: true }` failure, which `SetupTool.GetRequired`
    models as `InputRequired`.
- Strings are sequences of Unicode code points, not UTF-16 code units.
  `AssetUrl.IsLineTerminator` covers the four characters the regular-expression
  `.` refuses.
- GitHub: the API request (`github.getOctokit(...).request`) is a parameter.
  - Pagination and the shape of the response beyond an asset's `id`, `name` and
    `url` are not modelled.
- Logging is not modelled, because it has no effect on the results: `core.info`,
  `core.debug`, `core.error` and `core.group`.
- `run()` is not modelled, because it only wires the steps together and reports
  errors. This covers `core.addPath` and `core.setFailed`.
- SetupTool: `tc.downloadTool`, the extractors and `tc.cacheDir` are functions of
  `Host`, and their failures (network, disk) are not modelled.
  - Only the missing extractor is an error, the `TypeError` of calling
    `undefined`.
- SetupTool: `tc.find` is an exact map lookup on `(name, version, arch)`.
  - Its semantic-version range matching is not modelled.
  - Neither is its check of the cache's completion marker.
- SetupTool.JoinPath: `path.join` is plain concatenation with `/`; its
  normalisation of `.`, `..` and repeated separators is not modelled.
- `os.homedir()` is `Host.home`.
- Asynchrony is not modelled: each `await` is a sequential step.
- The `id` of an asset is carried but only logged by the source.
