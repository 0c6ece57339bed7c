/** `Config.Render` (`pkg/alloy/config.go`): the validation gate, the
    template step and the blank-line filter applied to the template's output.

    The template engine and the embedded template are not part of this
    model: `Render` receives the expansion as a total function from the
    configuration to text or an error message.
 */
module AlloyRender {
  import opened Results
  import opened GoStrings
  import opened AlloyConfig

  datatype RenderError =
    | RenderConfigNil
    | InvalidConfig(cause: ConfigError)
    | TemplateFailed(reason: string)

  /** A line the filter drops: nothing is left once white space is trimmed. */
  predicate Blank(line: string) {
    TrimSpace(line) == ""
  }

  /** `a` is obtained from `b` by deleting elements, keeping order. */
  predicate IsSubsequence(a: seq<string>, b: seq<string>)
    decreases |b|
  {
    if |a| == 0 then true
    else if |b| == 0 then false
    else if a[0] == b[0] then IsSubsequence(a[1..], b[1..])
    else IsSubsequence(a, b[1..])
  }

  /** The loop body of the filter, over the pieces of `strings.Lines`:
      blank lines are skipped, the others kept as they are. */
  function DropBlank(ls: seq<string>): (r: seq<string>)
    ensures forall l | l in r :: !Blank(l)
    ensures forall l | l in ls && !Blank(l) :: l in r
    ensures IsSubsequence(r, ls)
    ensures |r| <= |ls|
    decreases |ls|
  {
    if |ls| == 0 then []
    else
      var rest := DropBlank(ls[1..]);
      if Blank(ls[0]) then
        SkipBlankHead(ls, rest);
        rest
      else
        KeepHead(ls, rest);
        [ls[0]] + rest
  }

  /** The properties of `DropBlank` survive skipping a blank first line. */
  lemma SkipBlankHead(ls: seq<string>, rest: seq<string>)
    requires |ls| > 0 && Blank(ls[0])
    requires forall l | l in ls[1..] && !Blank(l) :: l in rest
    requires IsSubsequence(rest, ls[1..])
    ensures forall l | l in ls && !Blank(l) :: l in rest
    ensures IsSubsequence(rest, ls)
  {
    assert ls == [ls[0]] + ls[1..];
    SubsequenceDropFront(rest, ls);
  }

  /** The properties of `DropBlank` survive keeping a non-blank first line. */
  lemma KeepHead(ls: seq<string>, rest: seq<string>)
    requires |ls| > 0
    requires forall l | l in ls[1..] && !Blank(l) :: l in rest
    requires IsSubsequence(rest, ls[1..])
    ensures forall l | l in ls && !Blank(l) :: l in [ls[0]] + rest
    ensures IsSubsequence([ls[0]] + rest, ls)
  {

  }

  /** Matching first elements extend a subsequence. */
  lemma SubsequenceCons(a: seq<string>, b: seq<string>)
    requires |b| > 0 && IsSubsequence(a, b[1..])
    ensures IsSubsequence([b[0]] + a, b)
  {

  }

  /** The post-processing step of `Config.Render`: split with
      `strings.Lines`, drop the blank lines and join the rest unchanged. */
  function StripBlankLines(text: string): (out: string)
    ensures forall l | l in Lines(out) :: !Blank(l)
    ensures IsSubsequence(Lines(out), Lines(text))
    ensures forall l | l in Lines(text) && !Blank(l) :: l in Lines(out)
    ensures |out| <= |text|
  {
    var kept := DropBlank(Lines(text));
    LinesOfStrip(text);
    SubsequenceJoinLength(kept, Lines(text));
    Join(kept)
  }

  /** `Config.Render`. */
  function Render(cfg: Option<Config>, checks: Checks, template: Config -> Result<string, string>,
                  order: seq<string>): (r: Result<string, RenderError>)
    requires cfg.Some? ==> Enumerates(order, cfg.value.scrapes)
    ensures cfg.None? ==> r == Failure(RenderConfigNil)
    ensures r.Success? <==>
              cfg.Some? && ConfigValid(cfg.value, checks) && template(cfg.value).Success?
    ensures cfg.Some? && !ConfigValid(cfg.value, checks) ==>
              r.Failure? && r.error.InvalidConfig?
              && r.error.cause == ValidateConfig(cfg, checks, order).error
    ensures cfg.Some? && ConfigValid(cfg.value, checks) && template(cfg.value).Failure? ==>
              r == Failure(TemplateFailed(template(cfg.value).error))
    ensures r.Success? ==> forall l | l in Lines(r.value) :: !Blank(l)
    ensures r.Success? ==> IsSubsequence(Lines(r.value), Lines(template(cfg.value).value))
    ensures r.Success? ==> Lines(r.value) == DropBlank(Lines(template(cfg.value).value))
  {
    if cfg.None? then Failure(RenderConfigNil)
    else
      match ValidateConfig(cfg, checks, order)
      case Fail(e) => Failure(InvalidConfig(e))
      case Pass =>
        match template(cfg.value)
        case Failure(e) => Failure(TemplateFailed(e))
        case Success(data) =>
          LinesOfStrip(data);
          Success(StripBlankLines(data))
  }

  // Lemmas about the filter.

  /** A subsequence of the tail is a subsequence of the whole. */
  lemma {:induction false} SubsequenceDropFront(a: seq<string>, b: seq<string>)
    requires |b| > 0 && IsSubsequence(a, b[1..])
    ensures IsSubsequence(a, b)
    decreases |b|, 0
  {
    if |a| > 0 && a[0] == b[0] {
      SubsequenceTail(a, b[1..]);
    }
  }

  /** Dropping the head of a subsequence keeps it a subsequence. */
  lemma {:induction false} SubsequenceTail(a: seq<string>, b: seq<string>)
    requires |a| > 0 && IsSubsequence(a, b)
    ensures IsSubsequence(a[1..], b)
    decreases |b|, 1
  {
    if a[0] != b[0] {
      SubsequenceTail(a, b[1..]);
    }
    SubsequenceDropFront(a[1..], b);
  }

  /** A subsequence of lines never joins into longer text. */
  lemma {:induction false} SubsequenceJoinLength(a: seq<string>, b: seq<string>)
    requires IsSubsequence(a, b)
    ensures |Join(a)| <= |Join(b)|
    decreases |b|
  {
    if |a| > 0 {
      if a[0] == b[0] {
        SubsequenceJoinLength(a[1..], b[1..]);
      } else {
        SubsequenceJoinLength(a, b[1..]);
      }
    }
  }

  /** Dropping blank lines keeps the shape of a `strings.Lines` output. */
  lemma {:induction false} DropBlankWellFormed(ls: seq<string>)
    requires WellFormedLines(ls)
    ensures WellFormedLines(DropBlank(ls))
    decreases |ls|
  {
    if |ls| > 0 {
      var rest := ls[1..];
      WellFormedUncons(ls);
      DropBlankWellFormed(rest);
      var dr := DropBlank(rest);
      if !Blank(ls[0]) {
        assert DropBlank(ls) == [ls[0]] + dr;
        if |dr| > 0 {
          WellFormedAppend([ls[0]], dr);
        } else {
          assert [ls[0]] + dr == [ls[0]];
        }
      }
    }
  }

  /** The lines of the filtered text are exactly the non-blank lines of the
      input, in order. */
  lemma LinesOfStrip(text: string)
    ensures Lines(Join(DropBlank(Lines(text)))) == DropBlank(Lines(text))
  {
    DropBlankWellFormed(Lines(text));
    LinesOfJoin(DropBlank(Lines(text)));
  }

  /** The filter distributes over concatenation of line sequences. */
  lemma {:induction false} DropBlankAppend(a: seq<string>, b: seq<string>)
    ensures DropBlank(a + b) == DropBlank(a) + DropBlank(b)
    decreases |a|
  {
    if |a| == 0 {
      assert a + b == b;
    } else {
      assert (a + b)[1..] == a[1..] + b;
      DropBlankAppend(a[1..], b);
    }
  }

  /** A sequence without blank lines is left as it is. */
  lemma {:induction false} DropBlankFixpoint(ls: seq<string>)
    requires forall i | 0 <= i < |ls| :: !Blank(ls[i])
    ensures DropBlank(ls) == ls
    decreases |ls|
  {
    if |ls| > 0 {
      DropBlankFixpoint(ls[1..]);
    }
  }

  /** Filtering twice is filtering once. */
  lemma StripBlankLinesIdempotent(text: string)
    ensures StripBlankLines(StripBlankLines(text)) == StripBlankLines(text)
  {
    var once := StripBlankLines(text);
    LinesOfStrip(text);
    DropBlankFixpoint(Lines(once));
    LinesOfJoin(Lines(once));
  }

  /** Filtering `a + b`, where `a` is empty or ends in a line feed, is
      filtering `a` and `b` separately. */
  lemma StripBlankLinesAppend(a: string, b: string)
    requires a == "" || a[|a| - 1] == '\n'
    ensures StripBlankLines(a + b) == StripBlankLines(a) + StripBlankLines(b)
  {
    LinesAppend(a, b);
    DropBlankAppend(Lines(a), Lines(b));
    JoinAppend(DropBlank(Lines(a)), DropBlank(Lines(b)));
  }

  // Lemmas about `Render`.

  /** An invalid (or nil) configuration is rejected before the template is
      consulted: the template has no influence on the result. */
  lemma RenderSkipsTemplateWhenInvalid(cfg: Option<Config>, checks: Checks,
                                       template1: Config -> Result<string, string>,
                                       template2: Config -> Result<string, string>,
                                       order: seq<string>)
    requires cfg.Some? ==> Enumerates(order, cfg.value.scrapes)
    requires cfg.None? || !ConfigValid(cfg.value, checks)
    ensures Render(cfg, checks, template1, order) == Render(cfg, checks, template2, order)
    ensures Render(cfg, checks, template1, order).Failure?
  {
  }

  /** A successful rendering does not depend on the map iteration order. */
  lemma RenderSuccessOrderFree(c: Config, checks: Checks, template: Config -> Result<string, string>,
                               order1: seq<string>, order2: seq<string>)
    requires Enumerates(order1, c.scrapes) && Enumerates(order2, c.scrapes)
    requires Render(Some(c), checks, template, order1).Success?
    ensures Render(Some(c), checks, template, order2) == Render(Some(c), checks, template, order1)
  {
  }

  /** The rendered text is already free of blank lines: filtering it again
      changes nothing. */
  lemma RenderOutputIsFiltered(cfg: Option<Config>, checks: Checks, template: Config -> Result<string, string>,
                               order: seq<string>)
    requires cfg.Some? ==> Enumerates(order, cfg.value.scrapes)
    requires Render(cfg, checks, template, order).Success?
    ensures StripBlankLines(Render(cfg, checks, template, order).value) == Render(cfg, checks, template, order).value
  {
    StripBlankLinesIdempotent(template(cfg.value).value);
  }

}
