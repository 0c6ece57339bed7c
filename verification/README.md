# Alloy configuration: validation and blank-line filtering

A Dafny model of `pkg/alloy/config.go`, the piece of the library that turns
an in-memory `Config` tree into the configuration file of the Alloy
telemetry agent. It covers:

- the data model (`Config`, `Scrape`, `ScrapeSelf`, `ScrapeUnix`, `Kube`,
  plus the `Targets` shapes the repository's tests build);
- `Scrape.Validate`: exactly one of address, self mode and unix mode must be
  selected, with distinct errors for none and for several;
- `Kube.Validate`: only a nil `Kube` is rejected;
- `Config.Validate`: nil check, then `Targets.Validate`, then a fail-fast walk
  over the `Scrapes` map checking each name with `validateIdentifier` and each
  job with `Scrape.Validate`;
- `Config.Render`: nil check, validation gate, template expansion, then the
  post-processing that splits the text with `strings.Lines`, drops every line
  whose `strings.TrimSpace` is empty and concatenates the rest unchanged.

Files:

- `results.dfy` (module `Results`): `Option` for nil-able pointers, `Outcome`
  for functions returning only `error`, `Result` for `(T, error)`.
- `gostrings.dfy` (module `GoStrings`): `unicode.IsSpace`, `strings.IndexByte`,
  `strings.TrimSpace`, `strings.Lines` and the round trip between `Lines` and
  concatenation.
- `alloy_config.dfy` (module `AlloyConfig`): types and the three `Validate`
  methods.
- `alloy_render.dfy` (module `AlloyRender`): the blank-line filter and
  `Render`.

Modelling choices:

- Go pointers that may be nil are `Option<T>` arguments; each `fmt.Errorf`
  site is a constructor of an error datatype (`ScrapeError`, `KubeError`,
  `ConfigError`, `RenderError`).
- `validateIdentifier` and `Targets.Validate` are not defined in
  `config.go`; they are the two fields of a `Checks` value, total functions
  returning `None` for success or `Some(message)`. No character set is
  assumed for identifiers.
- The template engine call `tmpl.Render("config.alloy.tmpl", configTemplate, cfg)`
  is a parameter `template: Config -> Result<string, string>`.
- Go's map iteration order is unspecified. `ValidateConfig` and `Render`
  take the walk order as a parameter `order`, required to list every key
  exactly once (`Enumerates`). The contracts state the verdict without
  reference to `order`, and only say that a reported scrape error belongs to
  some bad entry; `ValidateConfigReportsFirstBad` adds that it is the first
  bad entry of the walk.
- Text is `seq<char>`, Go's UTF-8 strings after decoding. `TrimSpace` uses
  the full `unicode.IsSpace` set (the Latin-1 spaces including U+0085 and
  U+00A0, and the other Unicode White_Space code points). `IsSpace` has no
  contract of its own: it is the character table that `TrimLeft`,
  `TrimRight` and `TrimSpace` are stated over.
- The model follows the code as written, not the fuller validation one might
  expect: `Config.Validate` never calls `Kube.Validate` and never checks the
  log files, the hostname or the proxy URL
  (`ValidateConfigIgnoresUncheckedFields`). `LogFiles` is a list of strings,
  as `config.go` declares it.

## Model

| member | source | states |
|---|---|---|
| `AlloyConfig.ValidateScrape` | pkg/alloy/config.go:68-91 | nil is rejected as "scrape is nil"; success exactly when one of address, self, unix is selected; "no scrape options enabled" exactly when none is; "multiple scrape options enabled" exactly when two or three are |
| `AlloyConfig.ValidateKube` | pkg/alloy/config.go:93-99 | succeeds exactly when the Kube is non-nil |
| `AlloyConfig.CheckEntry` | pkg/alloy/config.go:56-62 | a scrape entry passes exactly when its name is an identifier and it selects one source; a bad name is reported before the job body is looked at; a bad body is reported with its name and the matching scrape error |
| `AlloyConfig.WalkScrapes` | pkg/alloy/config.go:55-63 | the fail-fast walk succeeds exactly when every visited entry is valid; a failure names a visited entry and carries that entry's own error |
| `AlloyConfig.ValidateConfig` | pkg/alloy/config.go:46-66 | nil is rejected; invalid targets are reported whatever the scrapes hold; with valid targets every failure names a scrape job; success exactly when targets are valid and every map entry is valid, whatever the iteration order; a scrape error names a key of the map whose entry is bad |
| `AlloyConfig.WalkReportsFirstBad` | pkg/alloy/config.go:55-63 | the walk returns the error of the first bad entry in its visiting order |
| `AlloyConfig.ValidateConfigReportsFirstBad` | pkg/alloy/config.go:51-63 | with valid targets, the error returned is that of the first bad job in the iteration order |
| `AlloyConfig.SingleBadEntryOrderFree` | pkg/alloy/config.go:55-63 | when exactly one job is bad the error is that job's, for every iteration order |
| `AlloyConfig.ValidateConfigIgnoresUncheckedFields` | pkg/alloy/config.go:46-66 | changing hostname, proxy URL, log files or Kube settings never changes the outcome of validation |
| `AlloyConfig.NoScrapesDecidedByTargets` | pkg/alloy/config.go:51-55 | with no scrape jobs, validation succeeds exactly when the targets do, else reports the targets' error |
| `AlloyConfig.AddressAndSelfRejected` | pkg/alloy/config.go:60-62 | a job with an address and self mode fails validation as "multiple scrape options enabled", naming the job |
| `AlloyConfig.NoOptionRejected` | pkg/alloy/config.go:83-85 | a job with no source fails validation as "no scrape options enabled", naming the job |
| `AlloyConfig.RepositoryExampleJobsValid` | pkg/alloy/config_test.go:277-294 | the address, self and unix jobs of the repository's rendering test validate when their names and targets are accepted |
| `GoStrings.TrimSpace` | pkg/alloy/config.go:120 | the result is a slice of the input with only white space before and after it; it is empty exactly when every code point of the line is white space, and otherwise starts and ends with a non-space |
| `GoStrings.TrimLeft` | pkg/alloy/config.go:120 | the result is a suffix of the input, everything removed is white space, and it does not start with white space |
| `GoStrings.TrimRight` | pkg/alloy/config.go:120 | the result is a prefix of the input, everything removed is white space, and it does not end with white space |
| `GoStrings.IndexByte` | pkg/alloy/config.go:119 | -1 exactly when the character is absent; otherwise the index of its first occurrence |
| `GoStrings.Lines` | pkg/alloy/config.go:119 | the pieces concatenate back to the text, are non-empty, hold a line feed only at their end, all but the last are terminated, and the empty text yields no pieces |
| `GoStrings.LinesOfJoin` | pkg/alloy/config.go:119 | splitting the concatenation of well-formed pieces gives the pieces back |
| `GoStrings.LinesAppend` | pkg/alloy/config.go:119 | for `a + b` where `a` is empty or ends in a line feed, splitting `a + b` is splitting `a` and `b` and concatenating the pieces |
| `AlloyRender.DropBlank` | pkg/alloy/config.go:119-124 | the kept lines contain no blank line, each non-blank input line occurs in the output, and the output is an in-order subsequence of the input (multiplicity is fixed by `DropBlankAppend`) |
| `AlloyRender.DropBlankAppend` | pkg/alloy/config.go:119-124 | the filter distributes over concatenation of line sequences, so with its one-line behaviour it keeps exactly the non-blank lines, duplicates included |
| `AlloyRender.DropBlankFixpoint` | pkg/alloy/config.go:119-124 | lines with no blank among them pass unchanged |
| `AlloyRender.StripBlankLines` | pkg/alloy/config.go:118-126 | the output has no blank line, its lines are an in-order subsequence of the input's, each non-blank input line occurs among them, and the output is never longer (exact line-for-line equality is `LinesOfStrip`) |
| `AlloyRender.LinesOfStrip` | pkg/alloy/config.go:118-126 | the lines of the output are exactly the non-blank lines of the input, byte for byte and in order |
| `AlloyRender.StripBlankLinesIdempotent` | pkg/alloy/config.go:118-126 | filtering twice gives the same text as filtering once |
| `AlloyRender.StripBlankLinesAppend` | pkg/alloy/config.go:118-126 | for `a + b` where `a` is empty or ends in a line feed, filtering `a + b` is filtering `a` and `b` and concatenating |
| `AlloyRender.Render` | pkg/alloy/config.go:104-127 | nil is rejected; an invalid config fails with the validation error wrapped and no text; success exactly when the config is valid and the template expands; a template failure is passed on; the output's lines are exactly the non-blank lines of the template output, in order and unchanged |
| `AlloyRender.RenderSkipsTemplateWhenInvalid` | pkg/alloy/config.go:105-111 | for a nil or invalid config the result fails and is the same whatever the template would do |
| `AlloyRender.RenderSuccessOrderFree` | pkg/alloy/config.go:104-127 | a successful rendering is the same for every map iteration order |
| `AlloyRender.RenderOutputIsFiltered` | pkg/alloy/config.go:118-126 | a successful rendering is a fixed point of the blank-line filter |

## Left out

- The template engine (`tmpl.Render`) and the embedded `config.alloy.tmpl`: foreign code and a file not part of this model; they are the `template` parameter of `Render`, so nothing is said about what the expansion produces.
- The bodies of `validateIdentifier` and `Targets.Validate`: not part of this model; they are the `Checks` parameter.
- Error message formatting: the `%q`/`%w` wrapping of `fmt.Errorf` is kept as structure (the job name and the wrapped error are constructor fields), not as text; only the fixed scrape messages are spelled out (`ScrapeError.Message`).
- Invalid UTF-8: text is a sequence of decoded code points, so the way `strings.TrimSpace` treats undecodable bytes (never as space) is not modelled.
- `IntervalSeconds`, `Collectors`, the proxy URL and the hostname are carried in the data model but are read only by the template, which is not modelled; the target fields are read only by `Targets.Validate` (the `Checks` parameter) and the template.
- The relabel rules (`Relabel`) and the `LogFile` records that the repository's tests write do not exist in the `config.go` that is modelled, which declares `LogFiles` as a list of strings; the model follows `config.go`.
- The golden-file comparison, file writes and the external `docker` validation of the repository's tests: I/O and external processes.
- Go map iteration order: not modelled as a random choice; the walk order is a parameter that must list each key once.
