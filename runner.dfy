/**
 * `Deliver::Runner`: the publish sequence. `Plan` lists the collaborator
 * calls a run makes when nothing raises; the class's methods append the
 * calls they make to `trace`, and each is proved to make the calls of its
 * part of the plan, up to the first fatal one.
 */
module Deliver {
  import opened Wrappers
  import opened Configuration
  import opened Collaborators
  import opened Execution
  import opened Policy
  import opened TransporterResolution

  /** `run` checks the version only for a non-empty `app_version`, unless told to skip it. */
  function VersionPlan(o: Options): (p: seq<Event>)
    ensures p != [] <==> o.appVersion.Some? && o.appVersion.value != "" && !o.skipAppVersionUpdate
    ensures p != [] ==> p == [EnsureVersion(o.appleId, o.appVersion.value, o.platform)]
  {
    if |ToS(o.appVersion)| > 0 && !o.skipAppVersionUpdate then
      [EnsureVersion(o.appleId, ToS(o.appVersion), o.platform)]
    else []
  }

  /** The HTML report call of `validate_html`, when it is made. */
  function HtmlPlan(o: Options): seq<Event> {
    if HtmlValidationRuns(o) then [GenerateHtmlReport] else []
  }

  /** The calls of `upload_metadata`, in order. */
  function MetadataPlan(o: Options): seq<Event> {
    [CollectScreenshots, LoadMetadata, AssignDefaults] + HtmlPlan(o) + CommitPlan()
  }

  /** The transporter `upload_binary` resolves. */
  function TransporterFor(o: Options, env: Env): Transporter {
    TransporterForSelectedTeam(o.itcProvider, env.account, env.providerIds)
  }

  /** The builder call of `upload_binary`, when a package is selected. */
  function BuildPlan(o: Options): seq<Event> {
    match SelectedPackage(o)
    case None => []
    case Some(p) => [BuildPackage(p, o.appleId, StagingDirectory, o.platform)]
  }

  /** The calls of `upload_binary`: build (maybe), then upload (always). */
  function UploadBinaryPlan(o: Options, env: Env): seq<Event> {
    BuildPlan(o) + [UploadPackage(o.appleId, TransporterFor(o, env), SelectedPackage(o))]
  }

  /** `run` uploads a binary unless told to skip it, unless a build number is given, and only if there is an artifact. */
  function BinaryPlan(o: Options, env: Env): (p: seq<Event>)
    ensures p != [] <==> !o.skipBinaryUpload && o.buildNumber.None? && (o.ipa.Some? || o.pkg.Some?)
    // The upload comes last, after the build of the selected package when there is one.
    ensures p != [] ==> p[|p| - 1] == UploadPackage(o.appleId, TransporterFor(o, env), SelectedPackage(o))
    ensures |p| <= 2 && (|p| == 2 <==> p != [] && SelectedPackage(o).Some?)
    ensures |p| == 2 ==> p[0] == BuildPackage(SelectedPackage(o).value, o.appleId, StagingDirectory, o.platform)
  {
    if !o.skipBinaryUpload && o.buildNumber.None? && (o.ipa.Some? || o.pkg.Some?) then
      UploadBinaryPlan(o, env)
    else []
  }

  /** `run` asks for rejection only with `reject_if_possible`. */
  function RejectPlan(o: Options): (p: seq<Event>)
    ensures RejectVersion(o.appleId) in p <==> o.rejectIfPossible
    ensures forall e :: e in p ==> e == RejectVersion(o.appleId)
  {
    if o.rejectIfPossible then [RejectVersion(o.appleId)] else []
  }

  /** `precheck_app` calls nothing when switched off; otherwise it configures Precheck, then audits. */
  function PrecheckPlan(o: Options): (p: seq<Event>)
    ensures p != [] <==> o.runPrecheckBeforeSubmit
    ensures p != [] ==> p == [ConfigurePrecheck(PrecheckConfigOf(o)), RunPrecheck(PrecheckConfigOf(o))]
  {
    if o.runPrecheckBeforeSubmit then
      [ConfigurePrecheck(PrecheckConfigOf(o)), RunPrecheck(PrecheckConfigOf(o))]
    else []
  }

  /** `run` submits only with `submit_for_review` and a passing precheck. */
  function SubmitPlan(o: Options, env: Env): (p: seq<Event>)
    ensures SubmitForReview in p <==> o.submitForReview && PrecheckPasses(o, env.audit)
    ensures forall e :: e in p ==> e == SubmitForReview
  {
    if o.submitForReview && PrecheckPasses(o, env.audit) then [SubmitForReview] else []
  }

  /** Every call `run` makes, in order, when no collaborator raises. */
  function Plan(o: Options, env: Env): (p: seq<Event>)
  {
    VersionPlan(o) + MetadataPlan(o) + BinaryPlan(o, env) + RejectPlan(o) + PrecheckPlan(o) + SubmitPlan(o, env)
  }

  /** What `run` does: its parts one after the other, until one of them stops the run. */
  function RunOf(o: Options, env: Env): (r: Execution)
    // A run that completes has made every planned call.
    ensures r.outcome.Completed? ==> r.events == Plan(o, env)
  {
    ExecuteStopsAtFirstFatal(VersionPlan(o), env);
    ExecuteStopsAtFirstFatal(MetadataPlan(o), env);
    ExecuteStopsAtFirstFatal(BinaryPlan(o, env), env);
    ExecuteStopsAtFirstFatal(RejectPlan(o), env);
    ExecuteStopsAtFirstFatal(PrecheckPlan(o), env);
    ExecuteStopsAtFirstFatal(SubmitPlan(o, env), env);
    Then(Then(Then(Then(Then(Execute(VersionPlan(o), env), Execute(MetadataPlan(o), env)),
      Execute(BinaryPlan(o, env), env)), Execute(RejectPlan(o), env)), Execute(PrecheckPlan(o), env)),
      Execute(SubmitPlan(o, env), env))
  }

  /** Running `run`'s parts one after the other is executing its whole plan. */
  lemma RunExecutesPlan(o: Options, env: Env)
    ensures RunOf(o, env) == Execute(Plan(o, env), env)
  {
    var v, m, b, r, p, s :=
      VersionPlan(o), MetadataPlan(o), BinaryPlan(o, env), RejectPlan(o), PrecheckPlan(o), SubmitPlan(o, env);
    ExecuteConcat(v, m, env);
    ExecuteConcat(v + m, b, env);
    ExecuteConcat(v + m + b, r, env);
    ExecuteConcat(v + m + b + r, p, env);
    ExecuteConcat(v + m + b + r + p, s, env);
  }

  /** Appending the events of an execution that follows a completed one. */
  lemma Extend(start: seq<Event>, x: Execution, y: Execution)
    requires x.outcome.Completed?
    ensures Then(x, y) == Execution(x.events + y.events, y.outcome)
    ensures start + x.events + y.events == start + Then(x, y).events
  {
  }

  /**
   * The precheck part ends a run only when building or installing the
   * Precheck configuration raises; the audit itself never does.
   */
  lemma PrecheckEndsRunOnlyInConfiguration(o: Options, env: Env)
    ensures var c := ConfigurePrecheck(PrecheckConfigOf(o));
      Execute(PrecheckPlan(o), env) ==
        if o.runPrecheckBeforeSubmit && c in env.raising then Execution([c], Aborted(c))
        else Execution(PrecheckPlan(o), Completed)
  {
    ExecuteEmpty(env);
    if o.runPrecheckBeforeSubmit {
      var c, audit := ConfigurePrecheck(PrecheckConfigOf(o)), RunPrecheck(PrecheckConfigOf(o));
      assert PrecheckPlan(o) == [c] + [audit];
      ExecuteConcat([c], [audit], env);
      ExecuteSingle(c, env);
      ExecuteSingle(audit, env);
    }
  }

  /** The three commits of `upload_metadata`, in order. */
  function CommitPlan(): seq<Event> {
    [CommitMetadata, CommitScreenshots, CommitPriceTier]
  }

  /** The commits execute one after the other. */
  lemma CommitDecomposition(env: Env)
    ensures Execute(CommitPlan(), env) ==
      Then(Then(Step(CommitMetadata, env), Step(CommitScreenshots, env)), Step(CommitPriceTier, env))
  {
    assert CommitPlan() == [CommitMetadata, CommitScreenshots] + [CommitPriceTier];
    ExecuteConcat([CommitMetadata, CommitScreenshots], [CommitPriceTier], env);
    assert [CommitMetadata, CommitScreenshots] == [CommitMetadata] + [CommitScreenshots];
    ExecuteConcat([CommitMetadata], [CommitScreenshots], env);
    ExecuteSingle(CommitMetadata, env);
    ExecuteSingle(CommitScreenshots, env);
    ExecuteSingle(CommitPriceTier, env);
  }

  /** `upload_metadata`'s plan executes call by call. */
  lemma MetadataDecomposition(o: Options, env: Env)
    ensures Execute(MetadataPlan(o), env) ==
      Then(Then(Then(Then(Step(CollectScreenshots, env), Step(LoadMetadata, env)), Step(AssignDefaults, env)),
        Execute(HtmlPlan(o), env)), Execute(CommitPlan(), env))
  {
    var h := HtmlPlan(o);
    var collect := [CollectScreenshots, LoadMetadata, AssignDefaults];
    ExecuteConcat(collect + h, CommitPlan(), env);
    ExecuteConcat(collect, h, env);
    assert collect == [CollectScreenshots, LoadMetadata] + [AssignDefaults];
    ExecuteConcat([CollectScreenshots, LoadMetadata], [AssignDefaults], env);
    assert [CollectScreenshots, LoadMetadata] == [CollectScreenshots] + [LoadMetadata];
    ExecuteConcat([CollectScreenshots], [LoadMetadata], env);
    ExecuteSingle(CollectScreenshots, env);
    ExecuteSingle(LoadMetadata, env);
    ExecuteSingle(AssignDefaults, env);
  }

  class Runner {
    const options: Options
    /** What the collaborators will do when called. */
    const env: Env
    /** The collaborator calls made so far. */
    var trace: seq<Event>

    /** Login, DetectValues and the summary table are not part of this model. */
    constructor (options: Options, env: Env)
      ensures this.options == options && this.env == env && trace == []
    {
      this.options := options;
      this.env := env;
      trace := [];
    }

    /** Makes one collaborator call. */
    method Call(e: Event) returns (outcome: RunOutcome)
      modifies this
      ensures trace == old(trace) + [e]
      ensures outcome == Step(e, env).outcome
    {
      trace := trace + [e];
      outcome := if Fatal(e, env) then FatalOutcome(e, env) else Completed;
      ExecuteSingle(e, env);
    }

    method Run() returns (outcome: RunOutcome)
      modifies this
      ensures trace == old(trace) + RunOf(options, env).events
      ensures outcome == RunOf(options, env).outcome
    {
      ExecuteEmpty(env);
      // `acc` is what the parts of the plan executed so far amount to.
      ghost var acc := Execute(VersionPlan(options), env);

      outcome := Completed;
      if |ToS(options.appVersion)| > 0 && !options.skipAppVersionUpdate {
        ExecuteSingle(EnsureVersion(options.appleId, ToS(options.appVersion), options.platform), env);
        var changed;
        outcome, changed := VerifyVersion();
        if !outcome.Completed? {
          assert RunOf(options, env) == acc;
          return;
        }
      }
      assert trace == old(trace) + acc.events && acc.outcome.Completed?;

      outcome := UploadMetadata();
      Extend(old(trace), acc, Execute(MetadataPlan(options), env));
      acc := Then(acc, Execute(MetadataPlan(options), env));
      assert trace == old(trace) + acc.events && outcome == acc.outcome;
      if !outcome.Completed? {
        assert RunOf(options, env) == acc;
        return;
      }

      var hasBinary := options.ipa.Some? || options.pkg.Some?;
      if !options.skipBinaryUpload && options.buildNumber.None? && hasBinary {
        outcome := UploadBinary();
      } else {
        ExecuteEmpty(env);
      }
      Extend(old(trace), acc, Execute(BinaryPlan(options, env), env));
      acc := Then(acc, Execute(BinaryPlan(options, env), env));
      assert trace == old(trace) + acc.events && outcome == acc.outcome;
      if !outcome.Completed? {
        assert RunOf(options, env) == acc;
        return;
      }

      if options.rejectIfPossible {
        ExecuteSingle(RejectVersion(options.appleId), env);
        outcome := RejectVersionIfPossible();
      }
      Extend(old(trace), acc, Execute(RejectPlan(options), env));
      acc := Then(acc, Execute(RejectPlan(options), env));
      assert trace == old(trace) + acc.events && outcome == acc.outcome;
      if !outcome.Completed? {
        assert RunOf(options, env) == acc;
        return;
      }

      var precheckSuccess;
      outcome, precheckSuccess := PrecheckApp();
      Extend(old(trace), acc, Execute(PrecheckPlan(options), env));
      acc := Then(acc, Execute(PrecheckPlan(options), env));
      assert trace == old(trace) + acc.events && outcome == acc.outcome;
      if !outcome.Completed? {
        assert RunOf(options, env) == acc;
        return;
      }

      if options.submitForReview && precheckSuccess {
        ExecuteSingle(Collaborators.SubmitForReview, env);
        outcome := SubmitForReview();
      }
      Extend(old(trace), acc, Execute(SubmitPlan(options, env), env));
      acc := Then(acc, Execute(SubmitPlan(options, env), env));
      assert trace == old(trace) + acc.events && outcome == acc.outcome;
      assert RunOf(options, env) == acc;
    }

    /**
     * Configures Precheck and audits; the verdict is the audit's own, or a
     * pass when the gate is off or the audit raises. A raise while building
     * the configuration is not rescued and ends the run.
     */
    method PrecheckApp() returns (outcome: RunOutcome, precheckSuccess: bool)
      modifies this
      ensures trace == old(trace) + Execute(PrecheckPlan(options), env).events
      ensures outcome == Execute(PrecheckPlan(options), env).outcome
      ensures outcome.Completed? ==> precheckSuccess == PrecheckPasses(options, env.audit)
    {
      PrecheckEndsRunOnlyInConfiguration(options, env);
      if !options.runPrecheckBeforeSubmit {
        return Completed, true;
      }
      var config := PrecheckConfigOf(options);
      outcome := Call(ConfigurePrecheck(config));
      if !outcome.Completed? {
        // The raise escapes `run`; no verdict is returned.
        return outcome, false;
      }
      precheckSuccess := true;
      outcome := Call(RunPrecheck(config));
      match env.audit
      case Passed =>
        precheckSuccess := true;
      case Failed =>
        precheckSuccess := false;
      case Raised =>
        // rescued: precheckSuccess keeps its initial value
    }

    /** Reconciles the remote version; `changed` is what `ensure_version!` reports. */
    method VerifyVersion() returns (outcome: RunOutcome, changed: bool)
      modifies this
      ensures trace == old(trace) + [EnsureVersion(options.appleId, ToS(options.appVersion), options.platform)]
      ensures outcome == Step(EnsureVersion(options.appleId, ToS(options.appVersion), options.platform), env).outcome
      ensures outcome.Completed? ==> changed == env.versionChanged
    {
      var appVersion := ToS(options.appVersion);
      outcome := Call(EnsureVersion(options.appleId, appVersion, options.platform));
      changed := env.versionChanged;
    }

    /** Collects, loads, defaults and validates, then commits metadata, screenshots and the price tier. */
    method UploadMetadata() returns (outcome: RunOutcome)
      modifies this
      ensures trace == old(trace) + Execute(MetadataPlan(options), env).events
      ensures outcome == Execute(MetadataPlan(options), env).outcome
    {
      MetadataDecomposition(options, env);
      CommitDecomposition(env);
      ghost var acc := Step(CollectScreenshots, env);

      outcome := Call(CollectScreenshots);
      if !outcome.Completed? { return; }
      outcome := Call(LoadMetadata);
      Extend(old(trace), acc, Step(LoadMetadata, env));
      acc := Then(acc, Step(LoadMetadata, env));
      if !outcome.Completed? { return; }
      outcome := Call(AssignDefaults);
      Extend(old(trace), acc, Step(AssignDefaults, env));
      acc := Then(acc, Step(AssignDefaults, env));
      if !outcome.Completed? { return; }
      outcome := ValidateHtml();
      Extend(old(trace), acc, Execute(HtmlPlan(options), env));
      acc := Then(acc, Execute(HtmlPlan(options), env));
      if !outcome.Completed? { return; }
      ghost var commits := Step(CommitMetadata, env);
      outcome := Call(CommitMetadata);
      if outcome.Completed? {
        outcome := Call(CommitScreenshots);
        Extend(old(trace) + acc.events, commits, Step(CommitScreenshots, env));
        commits := Then(commits, Step(CommitScreenshots, env));
        if outcome.Completed? {
          outcome := Call(CommitPriceTier);
          Extend(old(trace) + acc.events, commits, Step(CommitPriceTier, env));
          commits := Then(commits, Step(CommitPriceTier, env));
        }
      }
      Extend(old(trace), acc, commits);
    }

    /** Generates the HTML report unless forced or both metadata and screenshots are skipped. */
    method ValidateHtml() returns (outcome: RunOutcome)
      modifies this
      ensures trace == old(trace) + Execute(HtmlPlan(options), env).events
      ensures outcome == Execute(HtmlPlan(options), env).outcome
    {
      ExecuteEmpty(env);
      ExecuteSingle(GenerateHtmlReport, env);
      if options.force {
        return Completed;
      }
      if options.skipMetadata && options.skipScreenshots {
        return Completed;
      }
      outcome := Call(GenerateHtmlReport);
    }

    /** Builds the selected package, if any, and uploads it with the resolved transporter. */
    method UploadBinary() returns (outcome: RunOutcome)
      modifies this
      ensures trace == old(trace) + Execute(UploadBinaryPlan(options, env), env).events
      ensures outcome == Execute(UploadBinaryPlan(options, env), env).outcome
    {
      var uploadIpa := options.ipa.Some?;
      var uploadPkg := options.pkg.Some?;

      // The platform is checked only when both artifacts are given.
      if uploadIpa && uploadPkg {
        uploadIpa := options.platform in ["ios", "appletvos"];
        uploadPkg := options.platform == "osx";
      }

      var package: Option<Package> := None;
      ghost var built := BuildPlan(options);
      if uploadIpa {
        package := Some(Package(Ipa, options.ipa.value));
        outcome := Call(BuildPackage(package.value, options.appleId, StagingDirectory, options.platform));
      } else if uploadPkg {
        package := Some(Package(Pkg, options.pkg.value));
        outcome := Call(BuildPackage(package.value, options.appleId, StagingDirectory, options.platform));
      } else {
        outcome := Completed;
      }
      assert package == SelectedPackage(options);
      ExecuteEmpty(env);
      if package.Some? {
        ExecuteSingle(BuildPackage(package.value, options.appleId, StagingDirectory, options.platform), env);
      }
      var transporter := TransporterForSelectedTeam(options.itcProvider, env.account, env.providerIds);
      var upload := UploadPackage(options.appleId, transporter, package);
      ExecuteSingle(upload, env);
      ExecuteConcat(built, [upload], env);
      if !outcome.Completed? {
        return;
      }
      outcome := Call(upload);
    }

    /** Asks App Store Connect to reject the pending version; what it answers only selects a message. */
    method RejectVersionIfPossible() returns (outcome: RunOutcome)
      modifies this
      ensures trace == old(trace) + [RejectVersion(options.appleId)]
      ensures outcome == Step(RejectVersion(options.appleId), env).outcome
    {
      outcome := Call(RejectVersion(options.appleId));
    }

    method SubmitForReview() returns (outcome: RunOutcome)
      modifies this
      ensures trace == old(trace) + [Collaborators.SubmitForReview]
      ensures outcome == Step(Collaborators.SubmitForReview, env).outcome
    {
      outcome := Call(Collaborators.SubmitForReview);
    }
  }
}
