/** The configuration tree of the Alloy telemetry agent generator and its
    validation (`pkg/alloy/config.go`): `Scrape.Validate`, `Kube.Validate`
    and `Config.Validate`.

    Go pointers that may be nil are `Option` values. The collaborators whose
    code lies outside this model, `Targets.Validate` and `validateIdentifier`,
    are supplied as the total functions of a `Checks` value. Go's map
    iteration order is unspecified, so `Config.Validate` is given the order
    of its walk as a parameter; its contract is stated independently of it.
 */
module AlloyConfig {
  import opened Results

  /** Go's `uint` on a 64-bit platform. */
  type Uint = n: int | 0 <= n < 0x1_0000_0000_0000_0000

  // Remote-write destinations. Their shape is the one the repository's
  // tests build; their validation is a collaborator (see `Checks`).

  datatype TargetBasicAuth = TargetBasicAuth(username: string, password: string)

  datatype Target = Target(
    url: string,
    basicAuth: Option<TargetBasicAuth>,
    bearerToken: string,
    insecureSkipVerify: bool,
    labels: map<string, string>)

  datatype PrometheusTarget = PrometheusTarget(target: Target, sendIntervalSeconds: Uint)

  datatype LokiTarget = LokiTarget(target: Target)

  datatype Targets = Targets(
    prometheus: map<string, PrometheusTarget>,
    loki: map<string, LokiTarget>)

  // The types declared in config.go.

  datatype ScrapeSelf = ScrapeSelf(enable: bool)

  datatype ScrapeUnix = ScrapeUnix(enable: bool, collectors: seq<string>)

  /** One scrape job; meant to select exactly one collection source. */
  datatype Scrape = Scrape(
    intervalSeconds: Uint,
    address: string,
    self: ScrapeSelf,
    unix: ScrapeUnix)

  datatype Kube = Kube(podLogs: bool, events: bool)

  datatype Config = Config(
    hostname: string,
    targets: Targets,
    proxyURL: string,
    scrapes: map<string, Scrape>,
    logFiles: seq<string>,
    kube: Kube)

  // Errors, one constructor per `fmt.Errorf` site.

  datatype ScrapeError = ScrapeNil | NoScrapeOptions | MultipleScrapeOptions
  {
    /** The text the Go code reports. */
    function Message(): string {
      match this
      case ScrapeNil => "scrape is nil"
      case NoScrapeOptions => "no scrape options enabled"
      case MultipleScrapeOptions => "multiple scrape options enabled"
    }
  }

  datatype KubeError = KubeNil

  datatype ConfigError =
    | ConfigNil
    | InvalidTargets(reason: string)
    | InvalidScrapeName(name: string, reason: string)
    | InvalidScrape(name: string, scrapeError: ScrapeError)
  {
    /** The error names a scrape job. */
    predicate NamesScrape() {
      InvalidScrapeName? || InvalidScrape?
    }
  }

  /** Validators not part of this model: each returns None for a nil Go
      error, or Some of the error's text. */
  datatype Checks = Checks(
    targetsError: Targets -> Option<string>,
    identifierError: string -> Option<string>)

  // The rules, stated without reference to how the Go code checks them.

  predicate TargetsValid(t: Targets, checks: Checks) {
    checks.targetsError(t).None?
  }

  predicate IdentifierValid(name: string, checks: Checks) {
    checks.identifierError(name).None?
  }

  /** Exactly one of address, self mode and unix mode is selected. */
  predicate ExactlyOneSource(s: Scrape) {
    var a, b, c := s.address != "", s.self.enable, s.unix.enable;
    || (a && !b && !c)
    || (!a && b && !c)
    || (!a && !b && c)
  }

  /** No collection source is selected. */
  predicate NoSource(s: Scrape) {
    s.address == "" && !s.self.enable && !s.unix.enable
  }

  /** Two or more collection sources are selected. */
  predicate SeveralSources(s: Scrape) {
    var a, b, c := s.address != "", s.self.enable, s.unix.enable;
    (a && b) || (a && c) || (b && c)
  }

  /** A scrape job whose name and body are both acceptable. */
  predicate EntryValid(name: string, s: Scrape, checks: Checks) {
    IdentifierValid(name, checks) && ExactlyOneSource(s)
  }

  /** What `Config.Validate` accepts: valid targets and valid scrape jobs.
      The hostname, proxy URL, log files and Kube settings play no part. */
  predicate ConfigValid(c: Config, checks: Checks) {
    && TargetsValid(c.targets, checks)
    && forall name | name in c.scrapes :: EntryValid(name, c.scrapes[name], checks)
  }

  /** `order` visits every key of `m` exactly once, as a Go `range` does. */
  predicate Enumerates(order: seq<string>, m: map<string, Scrape>) {
    && (forall i, j | 0 <= i < j < |order| :: order[i] != order[j])
    && (forall i | 0 <= i < |order| :: order[i] in m)
    && (forall k | k in m :: k in order)
  }

  // The operations.

  /** Number of selected sources, counted as the Go code does. */
  function SourceCount(s: Scrape): nat {
    (if s.address != "" then 1 else 0)
    + (if s.self.enable then 1 else 0)
    + (if s.unix.enable then 1 else 0)
  }

  /** `Scrape.Validate`. */
  function ValidateScrape(s: Option<Scrape>): (r: Outcome<ScrapeError>)
    ensures s.None? ==> r == Fail(ScrapeNil)
    ensures s.Some? ==> (r == Pass <==> ExactlyOneSource(s.value))
    ensures s.Some? ==> (r == Fail(NoScrapeOptions) <==> NoSource(s.value))
    ensures s.Some? ==> (r == Fail(MultipleScrapeOptions) <==> SeveralSources(s.value))
  {
    if s.None? then Fail(ScrapeNil)
    else
      var opts := SourceCount(s.value);
      if opts == 0 then Fail(NoScrapeOptions)
      else if opts > 1 then Fail(MultipleScrapeOptions)
      else Pass
  }

  /** `Kube.Validate`: only a nil Kube is rejected. */
  function ValidateKube(k: Option<Kube>): (r: Outcome<KubeError>)
    ensures r.Pass? <==> k.Some?
  {
    if k.None? then Fail(KubeNil) else Pass
  }

  /** One iteration of the scrape loop of `Config.Validate`: the name is
      checked before the body. */
  function CheckEntry(name: string, s: Scrape, checks: Checks): (r: Outcome<ConfigError>)
    ensures r.Pass? <==> EntryValid(name, s, checks)
    ensures !IdentifierValid(name, checks) ==>
              r == Fail(InvalidScrapeName(name, checks.identifierError(name).value))
    ensures IdentifierValid(name, checks) && !ExactlyOneSource(s) ==>
              r == Fail(InvalidScrape(name, if NoSource(s) then NoScrapeOptions else MultipleScrapeOptions))
  {
    match checks.identifierError(name)
    case Some(reason) => Fail(InvalidScrapeName(name, reason))
    case None =>
      match ValidateScrape(Some(s))
      case Fail(e) => Fail(InvalidScrape(name, e))
      case Pass => Pass
  }

  /** The scrape loop of `Config.Validate`, visiting keys in `order` and
      stopping at the first bad entry. */
  function WalkScrapes(scrapes: map<string, Scrape>, order: seq<string>, checks: Checks): (r: Outcome<ConfigError>)
    requires forall i | 0 <= i < |order| :: order[i] in scrapes
    ensures r.Pass? <==> forall i | 0 <= i < |order| :: EntryValid(order[i], scrapes[order[i]], checks)
    ensures r.Fail? ==>
              && r.error.NamesScrape()
              && r.error.name in order
              && r == CheckEntry(r.error.name, scrapes[r.error.name], checks)
    decreases |order|
  {
    if |order| == 0 then Pass
    else
      match CheckEntry(order[0], scrapes[order[0]], checks)
      case Fail(e) => Fail(e)
      case Pass =>
        var r := WalkScrapes(scrapes, order[1..], checks);
        assert forall i | 1 <= i < |order| :: order[i] == order[1..][i - 1];
        r
  }

  /** `Config.Validate`. */
  function ValidateConfig(cfg: Option<Config>, checks: Checks, order: seq<string>): (r: Outcome<ConfigError>)
    requires cfg.Some? ==> Enumerates(order, cfg.value.scrapes)
    ensures cfg.None? ==> r == Fail(ConfigNil)
    ensures r.Pass? <==> cfg.Some? && ConfigValid(cfg.value, checks)
    ensures cfg.Some? && !TargetsValid(cfg.value.targets, checks) ==>
              r == Fail(InvalidTargets(checks.targetsError(cfg.value.targets).value))
    ensures cfg.Some? && TargetsValid(cfg.value.targets, checks) && r.Fail? ==> r.error.NamesScrape()
    ensures r.Fail? && r.error.NamesScrape() ==>
              && cfg.Some?
              && r.error.name in cfg.value.scrapes
              && !EntryValid(r.error.name, cfg.value.scrapes[r.error.name], checks)
              && r == CheckEntry(r.error.name, cfg.value.scrapes[r.error.name], checks)
  {
    if cfg.None? then Fail(ConfigNil)
    else
      var c := cfg.value;
      match checks.targetsError(c.targets)
      case Some(reason) => Fail(InvalidTargets(reason))
      case None =>
        var r := WalkScrapes(c.scrapes, order, checks);
        assert r.Pass? <==> ConfigValid(c, checks) by {
          if r.Pass? {
            forall name | name in c.scrapes ensures EntryValid(name, c.scrapes[name], checks) {
              assert name in order;
              var i :| 0 <= i < |order| && order[i] == name;
            }
          }
        }
        r
  }

  /** Fail-fast: the error reported is that of the first bad entry in the
      walk order. */
  lemma {:induction false} WalkReportsFirstBad(scrapes: map<string, Scrape>, order: seq<string>, checks: Checks, i: nat)
    requires forall k | 0 <= k < |order| :: order[k] in scrapes
    requires i < |order|
    requires !EntryValid(order[i], scrapes[order[i]], checks)
    requires forall j | 0 <= j < i :: EntryValid(order[j], scrapes[order[j]], checks)
    ensures WalkScrapes(scrapes, order, checks) == CheckEntry(order[i], scrapes[order[i]], checks)
    decreases i
  {
    if i > 0 {
      assert EntryValid(order[0], scrapes[order[0]], checks);
      assert forall j | 0 <= j < i - 1 :: order[1..][j] == order[j + 1];
      WalkReportsFirstBad(scrapes, order[1..], checks, i - 1);
    }
  }

  /** With valid targets, `Config.Validate` reports the first bad scrape
      job of its walk order. */
  lemma ValidateConfigReportsFirstBad(c: Config, checks: Checks, order: seq<string>, i: nat)
    requires Enumerates(order, c.scrapes)
    requires TargetsValid(c.targets, checks)
    requires i < |order|
    requires !EntryValid(order[i], c.scrapes[order[i]], checks)
    requires forall j | 0 <= j < i :: EntryValid(order[j], c.scrapes[order[j]], checks)
    ensures ValidateConfig(Some(c), checks, order) == CheckEntry(order[i], c.scrapes[order[i]], checks)
  {
    assert forall k | 0 <= k < |order| :: order[k] in c.scrapes;
    WalkReportsFirstBad(c.scrapes, order, checks, i);
  }

  /** When exactly one scrape job is bad, the error no longer depends on
      the walk order. */
  lemma SingleBadEntryOrderFree(c: Config, checks: Checks, order1: seq<string>, order2: seq<string>, bad: string)
    requires Enumerates(order1, c.scrapes) && Enumerates(order2, c.scrapes)
    requires TargetsValid(c.targets, checks)
    requires bad in c.scrapes && !EntryValid(bad, c.scrapes[bad], checks)
    requires forall name | name in c.scrapes && name != bad :: EntryValid(name, c.scrapes[name], checks)
    ensures ValidateConfig(Some(c), checks, order1) == ValidateConfig(Some(c), checks, order2)
    ensures ValidateConfig(Some(c), checks, order1) == CheckEntry(bad, c.scrapes[bad], checks)
  {
  }

  /** The hostname, proxy URL, log files and Kube settings never change the
      outcome: `Kube.Validate` is not called and log files are not checked. */
  lemma ValidateConfigIgnoresUncheckedFields(c: Config, checks: Checks, order: seq<string>,
                                             hostname: string, proxyURL: string, logFiles: seq<string>, kube: Kube)
    requires Enumerates(order, c.scrapes)
    ensures ValidateConfig(Some(c.(hostname := hostname, proxyURL := proxyURL, logFiles := logFiles, kube := kube)), checks, order)
            == ValidateConfig(Some(c), checks, order)
  {
  }

  /** A config with no scrape jobs is decided by its targets alone. */
  lemma NoScrapesDecidedByTargets(c: Config, checks: Checks)
    requires c.scrapes == map[]
    ensures ValidateConfig(Some(c), checks, []) ==
            (if TargetsValid(c.targets, checks) then Pass
             else Fail(InvalidTargets(checks.targetsError(c.targets).value)))
  {
  }

  /** A configuration holding the single scrape job `s` under `name`. */
  function SingleJob(targets: Targets, name: string, s: Scrape): Config {
    Config("", targets, "", map[name := s], [], Kube(false, false))
  }

  /** A job with both an address and self mode is reported, by name, as
      having multiple scrape options enabled. */
  lemma AddressAndSelfRejected(targets: Targets, checks: Checks, name: string, address: string)
    requires TargetsValid(targets, checks) && IdentifierValid(name, checks)
    requires address != ""
    ensures var c := SingleJob(targets, name, Scrape(15, address, ScrapeSelf(true), ScrapeUnix(false, [])));
            ValidateConfig(Some(c), checks, [name]) == Fail(InvalidScrape(name, MultipleScrapeOptions))
  {
  }

  /** A job with no source at all is reported, by name, as having no
      scrape options enabled. */
  lemma NoOptionRejected(targets: Targets, checks: Checks, name: string)
    requires TargetsValid(targets, checks) && IdentifierValid(name, checks)
    ensures var c := SingleJob(targets, name, Scrape(15, "", ScrapeSelf(false), ScrapeUnix(false, [])));
            ValidateConfig(Some(c), checks, [name]) == Fail(InvalidScrape(name, NoScrapeOptions))
  {
  }

  /** The three scrape jobs of the repository's "no-targets" rendering test
      each select one source, so with acceptable names they validate. */
  lemma RepositoryExampleJobsValid(targets: Targets, checks: Checks)
    requires TargetsValid(targets, checks)
    requires IdentifierValid("test_address", checks) && IdentifierValid("test_self", checks)
    requires IdentifierValid("test_unix", checks)
    ensures var c := Config("", targets, "", map[
                        "test_address" := Scrape(42, "localhost:12345", ScrapeSelf(false), ScrapeUnix(false, [])),
                        "test_self" := Scrape(43, "", ScrapeSelf(true), ScrapeUnix(false, [])),
                        "test_unix" := Scrape(44, "", ScrapeSelf(false), ScrapeUnix(true, ["asd"]))],
                      ["/var/log/syslog"], Kube(true, true));
            ValidateConfig(Some(c), checks, ["test_unix", "test_address", "test_self"]) == Pass
  {
  }

}
