/**
 * What `Deliver::Runner#run` guarantees about the calls it makes, stated
 * over the trace `RunOf(o, env).events` of every run.
 */
module RunProperties {
  import opened Wrappers
  import opened Configuration
  import opened Collaborators
  import opened Execution
  import opened Policy
  import opened TransporterResolution
  import opened Deliver

  predicate IsVersionCheck(e: Event) { e.EnsureVersion? }
  predicate IsBuild(e: Event) { e.BuildPackage? }
  predicate IsUpload(e: Event) { e.UploadPackage? }
  predicate IsReject(e: Event) { e.RejectVersion? }
  predicate IsPrecheckStep(e: Event) { e.ConfigurePrecheck? || e.RunPrecheck? }
  predicate IsSubmit(e: Event) { e == SubmitForReview }
  predicate IsMetadataCommit(e: Event) { e == CommitMetadata }

  /** The position of each step of `upload_metadata` in its fixed order; -1 for other calls. */
  function MetadataRank(e: Event): int {
    match e
    case CollectScreenshots => 0
    case LoadMetadata => 1
    case AssignDefaults => 2
    case GenerateHtmlReport => 3
    case CommitMetadata => 4
    case CommitScreenshots => 5
    case CommitPriceTier => 6
    case _ => -1
  }

  predicate IsMetadataStep(e: Event) { MetadataRank(e) >= 0 }

  /** Some call of `t` satisfies `p`. */
  ghost predicate Occurs(t: seq<Event>, p: Event -> bool) {
    exists e :: e in t && p(e)
  }

  /** Every call of `t` satisfying `p` comes before every call satisfying `q`. */
  ghost predicate Before(t: seq<Event>, p: Event -> bool, q: Event -> bool) {
    forall i, j :: 0 <= i < |t| && 0 <= j < |t| && p(t[i]) && q(t[j]) ==> i < j
  }

  /** The steps of `upload_metadata` occur in `t` in their fixed order, each at most once. */
  ghost predicate MetadataInOrder(t: seq<Event>) {
    forall i, j :: 0 <= i < j < |t| && IsMetadataStep(t[i]) && IsMetadataStep(t[j]) ==>
      MetadataRank(t[i]) < MetadataRank(t[j])
  }

  // ---------------------------------------------------------------------
  // Sequence facts used below

  lemma BeforeConcat(a: seq<Event>, b: seq<Event>, p: Event -> bool, q: Event -> bool)
    requires !Occurs(a, q) && !Occurs(b, p)
    ensures Before(a + b, p, q)
  {
    forall k | |a| <= k < |a + b| ensures !p((a + b)[k]) {
      assert (a + b)[k] == b[k - |a|];
    }
    forall k | 0 <= k < |a| ensures !q((a + b)[k]) {
      assert (a + b)[k] == a[k];
    }
  }

  lemma PrefixBefore(t: seq<Event>, plan: seq<Event>, p: Event -> bool, q: Event -> bool)
    requires t <= plan && Before(plan, p, q)
    ensures Before(t, p, q)
  {
    forall i, j | 0 <= i < |t| && 0 <= j < |t| && p(t[i]) && q(t[j]) ensures i < j {
      assert plan[i] == t[i] && plan[j] == t[j];
    }
  }

  // ---------------------------------------------------------------------
  // Where each kind of call sits in the plan

  /** The plan split at the end of the version check and at the end of the metadata upload. */
  lemma PlanShape(o: Options, env: Env)
    ensures Plan(o, env) == VersionPlan(o) + (MetadataPlan(o) + (BinaryPlan(o, env) + (RejectPlan(o) + (PrecheckPlan(o) + SubmitPlan(o, env)))))
  {
    Regroup(VersionPlan(o), MetadataPlan(o), BinaryPlan(o, env), RejectPlan(o), PrecheckPlan(o), SubmitPlan(o, env));
  }

  lemma Regroup(v: seq<Event>, m: seq<Event>, b: seq<Event>, r: seq<Event>, p: seq<Event>, s: seq<Event>)
    ensures v + m + b + r + p + s == v + (m + (b + (r + (p + s))))
  {
  }

  /** The plan split after the metadata upload. */
  lemma PlanFront(o: Options, env: Env)
    ensures Plan(o, env) == (VersionPlan(o) + MetadataPlan(o)) + (BinaryPlan(o, env) + (RejectPlan(o) + (PrecheckPlan(o) + SubmitPlan(o, env))))
  {
    RegroupFront(VersionPlan(o), MetadataPlan(o), BinaryPlan(o, env), RejectPlan(o), PrecheckPlan(o), SubmitPlan(o, env));
  }

  lemma RegroupFront(v: seq<Event>, m: seq<Event>, b: seq<Event>, r: seq<Event>, p: seq<Event>, s: seq<Event>)
    ensures v + m + b + r + p + s == (v + m) + (b + (r + (p + s)))
  {
  }

  /** A run makes the planned calls in order, stopping at the first fatal one. */
  lemma RunFollowsPlan(o: Options, env: Env)
    ensures RunOf(o, env).events <= Plan(o, env)
    ensures RunOf(o, env).outcome.Completed? <==>
      forall i :: 0 <= i < |Plan(o, env)| ==> !Fatal(Plan(o, env)[i], env)
    ensures RunOf(o, env).outcome.Completed? ==> RunOf(o, env).events == Plan(o, env)
    ensures |Plan(o, env)| > 0 ==> |RunOf(o, env).events| > 0
  {
    RunExecutesPlan(o, env);
    ExecuteStopsAtFirstFatal(Plan(o, env), env);
  }

  /** Which kind of call each of the six parts of a plan makes. */
  ghost predicate PartsOfKind(v: seq<Event>, m: seq<Event>, b: seq<Event>, r: seq<Event>, p: seq<Event>, s: seq<Event>) {
    && (forall e :: e in v ==> IsVersionCheck(e))
    && (forall e :: e in m ==> IsMetadataStep(e))
    && (forall e :: e in b ==> IsBuild(e) || IsUpload(e))
    && (forall e :: e in r ==> IsReject(e))
    && (forall e :: e in p ==> IsPrecheckStep(e))
    && (forall e :: e in s ==> IsSubmit(e))
  }

  lemma PartKinds(o: Options, env: Env)
    ensures PartsOfKind(VersionPlan(o), MetadataPlan(o), BinaryPlan(o, env), RejectPlan(o), PrecheckPlan(o), SubmitPlan(o, env))
  {
  }

  lemma PrefixMembers(t: seq<Event>, plan: seq<Event>)
    requires t <= plan
    ensures forall e :: e in t ==> e in plan
  {
    forall e | e in t ensures e in plan {
      var i :| 0 <= i < |t| && t[i] == e;
      assert plan[i] == e;
    }
  }

  /** In a prefix of `a + b`, no call satisfying `p` follows one satisfying `q` when `a` has no `q` and `b` no `p`. */
  lemma PartsBefore(t: seq<Event>, a: seq<Event>, b: seq<Event>, p: Event -> bool, q: Event -> bool)
    requires t <= a + b
    requires forall e :: e in a ==> !q(e)
    requires forall e :: e in b ==> !p(e)
    ensures Before(t, p, q)
  {
    BeforeConcat(a, b, p, q);
    PrefixBefore(t, a + b, p, q);
  }

  /** At most one call of `t` satisfies `p`. */
  ghost predicate AtMostOnce(t: seq<Event>, p: Event -> bool) {
    forall i, j :: 0 <= i < |t| && 0 <= j < |t| && p(t[i]) && p(t[j]) ==> i == j
  }

  /** When only the middle part `b` has calls satisfying `p`, each such call of `a + (b + c)` is one of `b`'s. */
  lemma MiddleIndices(a: seq<Event>, b: seq<Event>, c: seq<Event>, p: Event -> bool)
    requires forall e :: e in a ==> !p(e)
    requires forall e :: e in c ==> !p(e)
    ensures forall k :: 0 <= k < |a + (b + c)| && p((a + (b + c))[k]) ==>
      |a| <= k < |a| + |b| && (a + (b + c))[k] == b[k - |a|]
  {
    var w := a + (b + c);
    forall k | 0 <= k < |a| ensures !p(w[k]) {
      assert w[k] == a[k];
    }
    forall k | |a| + |b| <= k < |w| ensures !p(w[k]) {
      assert w[k] == c[k - |a| - |b|];
    }
    forall k | |a| <= k < |a| + |b| ensures w[k] == b[k - |a|] {
    }
  }

  lemma OnceInMiddle(t: seq<Event>, a: seq<Event>, b: seq<Event>, c: seq<Event>, p: Event -> bool)
    requires t <= a + (b + c)
    requires forall e :: e in a ==> !p(e)
    requires forall e :: e in c ==> !p(e)
    requires AtMostOnce(b, p)
    ensures AtMostOnce(t, p)
  {
    var w := a + (b + c);
    MiddleIndices(a, b, c, p);
    forall i, j | 0 <= i < |t| && 0 <= j < |t| && p(t[i]) && p(t[j]) ensures i == j {
      assert w[i] == t[i] && w[j] == t[j];
      assert b[i - |a|] == t[i] && b[j - |a|] == t[j];
    }
  }

  lemma InOrderInMiddle(t: seq<Event>, a: seq<Event>, m: seq<Event>, c: seq<Event>)
    requires t <= a + (m + c)
    requires forall e :: e in a ==> !IsMetadataStep(e)
    requires forall e :: e in c ==> !IsMetadataStep(e)
    requires MetadataInOrder(m)
    ensures MetadataInOrder(t)
  {
    var w := a + (m + c);
    MiddleIndices(a, m, c, IsMetadataStep);
    forall i, j | 0 <= i < j < |t| && IsMetadataStep(t[i]) && IsMetadataStep(t[j])
      ensures MetadataRank(t[i]) < MetadataRank(t[j])
    {
      assert w[i] == t[i] && w[j] == t[j];
      assert m[i - |a|] == t[i] && m[j - |a|] == t[j];
    }
  }

  /** A prefix of `ab + c` whose last call satisfies `p`, which no call of `c` does, is a prefix of `ab`. */
  lemma EndsBefore(t: seq<Event>, ab: seq<Event>, c: seq<Event>, p: Event -> bool)
    requires t <= ab + c && |t| > 0 && p(t[|t| - 1])
    requires forall e :: e in c ==> !p(e)
    ensures t <= ab
  {
    var w := ab + c;
    forall k | |ab| <= k < |w| ensures !p(w[k]) {
      assert w[k] == c[k - |ab|];
    }
    assert w[|t| - 1] == t[|t| - 1];
    assert |t| <= |ab|;
    forall k | 0 <= k < |t| ensures t[k] == ab[k] {
      assert w[k] == ab[k];
    }
  }

  // ---------------------------------------------------------------------
  // Facts about any prefix of a six-part plan whose parts make one kind of call each

  /** Each call of the prefix `t` comes from the part that makes that kind of call. */
  lemma LocateParts(t: seq<Event>, v: seq<Event>, m: seq<Event>, b: seq<Event>, r: seq<Event>, p: seq<Event>, s: seq<Event>)
    requires t <= v + (m + (b + (r + (p + s)))) && PartsOfKind(v, m, b, r, p, s)
    ensures forall e :: e in t && IsVersionCheck(e) ==> e in v
    ensures forall e :: e in t && IsMetadataStep(e) ==> e in m
    ensures forall e :: e in t && (IsBuild(e) || IsUpload(e)) ==> e in b
    ensures forall e :: e in t && IsReject(e) ==> e in r
    ensures forall e :: e in t && IsPrecheckStep(e) ==> e in p
    ensures forall e :: e in t && IsSubmit(e) ==> e in s
    ensures t == v + (m + (b + (r + (p + s)))) ==>
      forall e :: e in v || e in m || e in b || e in r || e in p || e in s ==> e in t
  {
    PrefixMembers(t, v + (m + (b + (r + (p + s)))));
  }

  /** The order of the kinds of call in the prefix `t`. */
  lemma OrderParts(t: seq<Event>, v: seq<Event>, m: seq<Event>, b: seq<Event>, r: seq<Event>, p: seq<Event>, s: seq<Event>)
    requires t <= v + (m + (b + (r + (p + s)))) && PartsOfKind(v, m, b, r, p, s)
    ensures Before(t, IsVersionCheck, IsMetadataCommit)
    ensures Before(t, IsReject, IsPrecheckStep)
    ensures Before(t, IsPrecheckStep, IsSubmit)
    ensures Before(t, IsMetadataCommit, IsSubmit)
    ensures Before(t, IsUpload, IsSubmit)
  {
    var w := v + (m + (b + (r + (p + s))));
    PartsBefore(t, v, m + (b + (r + (p + s))), IsVersionCheck, IsMetadataCommit);
    assert w == (v + m + b + r) + (p + s);
    PartsBefore(t, v + m + b + r, p + s, IsReject, IsPrecheckStep);
    assert w == (v + m + b + r + p) + s;
    PartsBefore(t, v + m + b + r + p, s, IsPrecheckStep, IsSubmit);
    PartsBefore(t, v + m + b + r + p, s, IsMetadataCommit, IsSubmit);
    PartsBefore(t, v + m + b + r + p, s, IsUpload, IsSubmit);
  }

  /** The prefix `t` keeps the metadata order of `m` and the single build and upload of `b`. */
  lemma MultiplicityParts(t: seq<Event>, v: seq<Event>, m: seq<Event>, b: seq<Event>, r: seq<Event>, p: seq<Event>, s: seq<Event>)
    requires t <= v + (m + (b + (r + (p + s)))) && PartsOfKind(v, m, b, r, p, s)
    requires MetadataInOrder(m) && AtMostOnce(b, IsBuild) && AtMostOnce(b, IsUpload)
    ensures MetadataInOrder(t) && AtMostOnce(t, IsBuild) && AtMostOnce(t, IsUpload)
  {
    InOrderInMiddle(t, v, m, b + (r + (p + s)));
    var w := v + (m + (b + (r + (p + s))));
    assert w == (v + m) + (b + (r + (p + s)));
    OnceInMiddle(t, v + m, b, r + (p + s), IsBuild);
    OnceInMiddle(t, v + m, b, r + (p + s), IsUpload);
  }

  /** A prefix `t` ending with an upload has no call of the later parts. */
  lemma EndsInBinaryPart(t: seq<Event>, v: seq<Event>, m: seq<Event>, b: seq<Event>, r: seq<Event>, p: seq<Event>, s: seq<Event>)
    requires t <= v + (m + (b + (r + (p + s)))) && PartsOfKind(v, m, b, r, p, s)
    requires |t| > 0 && IsUpload(t[|t| - 1])
    ensures forall e :: e in t ==> !IsReject(e) && !IsPrecheckStep(e) && !IsSubmit(e)
  {
    var w := v + (m + (b + (r + (p + s))));
    assert w == (v + m + b) + (r + (p + s));
    EndsBefore(t, v + m + b, r + (p + s), IsUpload);
    PrefixMembers(t, v + m + b);
  }

  // ---------------------------------------------------------------------
  // The version check

  /**
   * The version is checked only for a non-empty `app_version` without
   * `skip_app_version_update`; then it is the first call of the run, and
   * it always comes before the metadata commit.
   */
  lemma VersionCheckCondition(o: Options, env: Env)
    ensures Occurs(RunOf(o, env).events, IsVersionCheck) ==>
      o.appVersion.Some? && o.appVersion.value != "" && !o.skipAppVersionUpdate
    ensures o.appVersion.Some? && o.appVersion.value != "" && !o.skipAppVersionUpdate ==>
      && |RunOf(o, env).events| > 0
      && RunOf(o, env).events[0] == EnsureVersion(o.appleId, o.appVersion.value, o.platform)
    ensures Before(RunOf(o, env).events, IsVersionCheck, IsMetadataCommit)
  {
    var t := RunOf(o, env).events;
    var v, m, b, r, p, s :=
      VersionPlan(o), MetadataPlan(o), BinaryPlan(o, env), RejectPlan(o), PrecheckPlan(o), SubmitPlan(o, env);
    RunFollowsPlan(o, env);
    PlanShape(o, env);
    PartKinds(o, env);
    LocateParts(t, v, m, b, r, p, s);
    OrderParts(t, v, m, b, r, p, s);
    if v != [] {
      assert (v + (m + (b + (r + (p + s)))))[0] == v[0];
    }
  }

  // ---------------------------------------------------------------------
  // The metadata upload

  /** The steps of `upload_metadata` come in their fixed order. */
  lemma MetadataPlanInOrder(o: Options)
    ensures MetadataInOrder(MetadataPlan(o))
  {
    if HtmlValidationRuns(o) {
      assert MetadataPlan(o) == [CollectScreenshots, LoadMetadata, AssignDefaults, GenerateHtmlReport,
        CommitMetadata, CommitScreenshots, CommitPriceTier];
    } else {
      assert MetadataPlan(o) == [CollectScreenshots, LoadMetadata, AssignDefaults,
        CommitMetadata, CommitScreenshots, CommitPriceTier];
    }
  }

  /** Which calls `upload_metadata` makes. */
  lemma MetadataPlanCalls(o: Options)
    ensures CommitMetadata in MetadataPlan(o) && CommitScreenshots in MetadataPlan(o) && CommitPriceTier in MetadataPlan(o)
    ensures GenerateHtmlReport in MetadataPlan(o) <==> HtmlValidationRuns(o)
  {
    assert MetadataPlan(o) == [CollectScreenshots, LoadMetadata, AssignDefaults] + (HtmlPlan(o) + CommitPlan());
  }

  /** A run makes the steps of `upload_metadata` in their fixed order, each at most once. */
  lemma MetadataOrder(o: Options, env: Env)
    ensures MetadataInOrder(RunOf(o, env).events)
  {
    var t := RunOf(o, env).events;
    var v, m, b, r, p, s :=
      VersionPlan(o), MetadataPlan(o), BinaryPlan(o, env), RejectPlan(o), PrecheckPlan(o), SubmitPlan(o, env);
    RunFollowsPlan(o, env);
    PlanShape(o, env);
    PartKinds(o, env);
    MetadataPlanInOrder(o);
    BinaryPlanOnce(o, env);
    MultiplicityParts(t, v, m, b, r, p, s);
  }

  /** A run makes the HTML report only when `validate_html` does not return early. */
  lemma HtmlReportCondition(o: Options, env: Env)
    ensures GenerateHtmlReport in RunOf(o, env).events ==> HtmlValidationRuns(o)
  {
    var t := RunOf(o, env).events;
    var v, m, b, r, p, s :=
      VersionPlan(o), MetadataPlan(o), BinaryPlan(o, env), RejectPlan(o), PrecheckPlan(o), SubmitPlan(o, env);
    RunFollowsPlan(o, env);
    PlanShape(o, env);
    PartKinds(o, env);
    LocateParts(t, v, m, b, r, p, s);
    assert IsMetadataStep(GenerateHtmlReport);
    MetadataPlanCalls(o);
  }

  /** The calls of a part with no fatal call, at the start of a plan, are all made. */
  lemma PrefixRuns(t: seq<Event>, a: seq<Event>, c: seq<Event>, env: Env)
    requires t == Execute(a + c, env).events
    requires forall e :: e in a ==> !Fatal(e, env)
    ensures forall e :: e in a ==> e in t
  {
    ExecuteRunsNonFatalPrefix(a, c, env);
    PrefixMembers(a, t);
  }

  /**
   * Unless the version check or a metadata step itself raises, a run makes
   * every step of `upload_metadata`, the HTML report exactly when
   * `validate_html` does not return early.
   */
  lemma MetadataAlwaysRuns(o: Options, env: Env)
    requires forall e :: e in VersionPlan(o) + MetadataPlan(o) ==> !Fatal(e, env)
    ensures CommitMetadata in RunOf(o, env).events
    ensures CommitScreenshots in RunOf(o, env).events
    ensures CommitPriceTier in RunOf(o, env).events
    ensures GenerateHtmlReport in RunOf(o, env).events <==> HtmlValidationRuns(o)
    ensures forall e :: e in MetadataPlan(o) ==> e in RunOf(o, env).events
  {
    var v, m, b, r, p, s :=
      VersionPlan(o), MetadataPlan(o), BinaryPlan(o, env), RejectPlan(o), PrecheckPlan(o), SubmitPlan(o, env);
    PlanFront(o, env);
    RunExecutesPlan(o, env);
    PrefixRuns(RunOf(o, env).events, v + m, b + (r + (p + s)), env);
    MetadataPlanCalls(o);
    HtmlReportCondition(o, env);
  }

  // ---------------------------------------------------------------------
  // The binary upload

  /** `upload_binary` builds at most once and uploads at most once. */
  lemma BinaryPlanOnce(o: Options, env: Env)
    ensures AtMostOnce(BinaryPlan(o, env), IsBuild) && AtMostOnce(BinaryPlan(o, env), IsUpload)
  {
  }

  /**
   * A binary is built and uploaded only when the upload is not skipped,
   * no build number is given and an ipa or a pkg is; each happens at most
   * once; and a run that completes under those conditions has uploaded.
   */
  lemma BinaryUploadCondition(o: Options, env: Env)
    ensures (exists e :: e in RunOf(o, env).events && (IsBuild(e) || IsUpload(e))) ==>
      !o.skipBinaryUpload && o.buildNumber.None? && (o.ipa.Some? || o.pkg.Some?)
    ensures AtMostOnce(RunOf(o, env).events, IsBuild)
    ensures AtMostOnce(RunOf(o, env).events, IsUpload)
    ensures RunOf(o, env).outcome.Completed? && !o.skipBinaryUpload && o.buildNumber.None? && (o.ipa.Some? || o.pkg.Some?)
      ==> UploadPackage(o.appleId, TransporterFor(o, env), SelectedPackage(o)) in RunOf(o, env).events
  {
    var t := RunOf(o, env).events;
    var v, m, b, r, p, s :=
      VersionPlan(o), MetadataPlan(o), BinaryPlan(o, env), RejectPlan(o), PrecheckPlan(o), SubmitPlan(o, env);
    RunFollowsPlan(o, env);
    PlanShape(o, env);
    PartKinds(o, env);
    MetadataPlanInOrder(o);
    BinaryPlanOnce(o, env);
    LocateParts(t, v, m, b, r, p, s);
    MultiplicityParts(t, v, m, b, r, p, s);
  }

  /** The build and the upload that `upload_binary` plans. */
  lemma BinaryPlanCalls(o: Options, env: Env)
    ensures forall e :: e in BinaryPlan(o, env) && IsUpload(e) ==>
      e == UploadPackage(o.appleId, TransporterFor(o, env), SelectedPackage(o))
    ensures forall e :: e in BinaryPlan(o, env) && IsBuild(e) ==>
      SelectedPackage(o).Some? && e == BuildPackage(SelectedPackage(o).value, o.appleId, StagingDirectory, o.platform)
  {
  }

  /**
   * The build uses the package selected for the platform, with the staging
   * directory; the upload names that package and the transporter resolved
   * for the selected team.
   */
  lemma UploadsSelectedPackage(o: Options, env: Env)
    ensures forall e :: e in RunOf(o, env).events && IsUpload(e) ==>
      e == UploadPackage(o.appleId, TransporterFor(o, env), SelectedPackage(o))
    ensures forall e :: e in RunOf(o, env).events && IsBuild(e) ==>
      SelectedPackage(o).Some? && e == BuildPackage(SelectedPackage(o).value, o.appleId, StagingDirectory, o.platform)
  {
    var t := RunOf(o, env).events;
    var v, m, b, r, p, s :=
      VersionPlan(o), MetadataPlan(o), BinaryPlan(o, env), RejectPlan(o), PrecheckPlan(o), SubmitPlan(o, env);
    RunFollowsPlan(o, env);
    PlanShape(o, env);
    PartKinds(o, env);
    LocateParts(t, v, m, b, r, p, s);
    BinaryPlanCalls(o, env);
  }

  // ---------------------------------------------------------------------
  // Rejection, precheck and submission

  /**
   * The version is submitted only with `submit_for_review` when precheck
   * passed, and a completed run asked to has submitted. Precheck, the
   * metadata commit and the binary upload all come before submission.
   */
  lemma SubmissionGating(o: Options, env: Env)
    ensures SubmitForReview in RunOf(o, env).events ==> o.submitForReview && PrecheckPasses(o, env.audit)
    ensures RunOf(o, env).outcome.Completed? && o.submitForReview && PrecheckPasses(o, env.audit) ==>
      SubmitForReview in RunOf(o, env).events
    ensures Before(RunOf(o, env).events, IsPrecheckStep, IsSubmit)
    ensures Before(RunOf(o, env).events, IsMetadataCommit, IsSubmit)
    ensures Before(RunOf(o, env).events, IsUpload, IsSubmit)
  {
    var t := RunOf(o, env).events;
    var v, m, b, r, p, s :=
      VersionPlan(o), MetadataPlan(o), BinaryPlan(o, env), RejectPlan(o), PrecheckPlan(o), SubmitPlan(o, env);
    RunFollowsPlan(o, env);
    PlanShape(o, env);
    PartKinds(o, env);
    LocateParts(t, v, m, b, r, p, s);
    OrderParts(t, v, m, b, r, p, s);
  }

  /**
   * The version is rejected only with `reject_if_possible`, and a
   * completed run asked to has rejected it, before precheck.
   */
  lemma RejectionGating(o: Options, env: Env)
    ensures (exists e :: e in RunOf(o, env).events && IsReject(e)) ==> o.rejectIfPossible
    ensures RunOf(o, env).outcome.Completed? && o.rejectIfPossible ==> RejectVersion(o.appleId) in RunOf(o, env).events
    ensures Before(RunOf(o, env).events, IsReject, IsPrecheckStep)
  {
    var t := RunOf(o, env).events;
    var v, m, b, r, p, s :=
      VersionPlan(o), MetadataPlan(o), BinaryPlan(o, env), RejectPlan(o), PrecheckPlan(o), SubmitPlan(o, env);
    RunFollowsPlan(o, env);
    PlanShape(o, env);
    PartKinds(o, env);
    LocateParts(t, v, m, b, r, p, s);
    OrderParts(t, v, m, b, r, p, s);
  }

  /**
   * Precheck is configured and run only with `run_precheck_before_submit`,
   * both times with the configuration built from the options.
   */
  lemma PrecheckInvocation(o: Options, env: Env)
    ensures forall e :: e in RunOf(o, env).events && IsPrecheckStep(e) ==>
      && o.runPrecheckBeforeSubmit
      && (e == ConfigurePrecheck(PrecheckConfigOf(o)) || e == RunPrecheck(PrecheckConfigOf(o)))
  {
    var t := RunOf(o, env).events;
    var v, m, b, r, p, s :=
      VersionPlan(o), MetadataPlan(o), BinaryPlan(o, env), RejectPlan(o), PrecheckPlan(o), SubmitPlan(o, env);
    RunFollowsPlan(o, env);
    PlanShape(o, env);
    PartKinds(o, env);
    LocateParts(t, v, m, b, r, p, s);
  }

  /** An execution never stops at a precheck: the failures of precheck are rescued. */
  lemma ExecuteNeverAbortsOnPrecheck(plan: seq<Event>, env: Env)
    ensures Execute(plan, env).outcome.Aborted? ==> !Execute(plan, env).outcome.call.RunPrecheck?
  {
    ExecuteStopsAtFirstFatal(plan, env);
  }

  /** A run never ends because of precheck. */
  lemma PrecheckNeverAborts(o: Options, env: Env)
    ensures RunOf(o, env).outcome.Aborted? ==> !RunOf(o, env).outcome.call.RunPrecheck?
  {
    RunExecutesPlan(o, env);
    ExecuteNeverAbortsOnPrecheck(Plan(o, env), env);
  }

  // ---------------------------------------------------------------------
  // How a run ends

  /**
   * A run ends with `UploadFailed` only when App Store Connect refused the
   * upload, which is then its last call: nothing is rejected, prechecked
   * or submitted after it.
   */
  lemma UploadFailureEndsRun(o: Options, env: Env)
    requires RunOf(o, env).outcome.UploadFailed?
    ensures !env.uploadAccepted
    ensures |RunOf(o, env).events| > 0 && IsUpload(RunOf(o, env).events[|RunOf(o, env).events| - 1])
    ensures forall e :: e in RunOf(o, env).events ==> !IsReject(e) && !IsPrecheckStep(e) && !IsSubmit(e)
  {
    var t := RunOf(o, env).events;
    var v, m, b, r, p, s :=
      VersionPlan(o), MetadataPlan(o), BinaryPlan(o, env), RejectPlan(o), PrecheckPlan(o), SubmitPlan(o, env);
    RunExecutesPlan(o, env);
    ExecuteStopsAtFirstFatal(Plan(o, env), env);
    PlanShape(o, env);
    PartKinds(o, env);
    EndsInBinaryPart(t, v, m, b, r, p, s);
  }

  /** A run in which no collaborator raises and the upload is accepted makes every planned call and completes. */
  lemma FaultFreeRunCompletes(o: Options, env: Env)
    requires env.raising == {} && env.uploadAccepted
    ensures RunOf(o, env) == Execution(Plan(o, env), Completed)
  {
    RunExecutesPlan(o, env);
    ExecuteStopsAtFirstFatal(Plan(o, env), env);
  }

  /**
   * A refused upload that did not raise ends the run with `UploadFailed`
   * and is the run's last call; by `UploadFailureEndsRun`, nothing is then
   * rejected, prechecked or submitted.
   */
  lemma RefusedUploadEndsRun(o: Options, env: Env, e: Event)
    requires e in RunOf(o, env).events && e.UploadPackage? && !env.uploadAccepted && e !in env.raising
    ensures RunOf(o, env).outcome == UploadFailed
    ensures RunOf(o, env).events[|RunOf(o, env).events| - 1] == e
  {
    RunExecutesPlan(o, env);
    ExecuteEndsAtFatalCall(Plan(o, env), env, e);
  }

  /**
   * After the calls of a part with no fatal call, an execution makes the
   * first call of the next part, and its second unless the first is fatal.
   */
  lemma NextPartStarts(t: seq<Event>, front: seq<Event>, b: seq<Event>, rest: seq<Event>, env: Env)
    requires t == Execute(front + (b + rest), env).events
    requires forall e :: e in front ==> !Fatal(e, env)
    ensures |b| > 0 ==> b[0] in t
    ensures |b| > 1 && !Fatal(b[0], env) ==> b[1] in t
  {
    ExecuteConcat(front, b + rest, env);
    ExecuteStopsAtFirstFatal(front, env);
    ExecuteStopsAtFirstFatal(b + rest, env);
    var y := Execute(b + rest, env).events;
    assert t == front + y;
    if |b| > 0 {
      assert (b + rest)[0] == b[0] && y[0] == b[0];
      assert t[|front|] == b[0];
    }
    if |b| > 1 && !Fatal(b[0], env) {
      assert (b + rest)[1] == b[1];
      assert |y| > 1;
      assert t[|front| + 1] == y[1] == b[1];
    }
  }

  /**
   * Unless the version check or a metadata step raises, a run whose options
   * call for a binary upload builds the selected package (the only artifact,
   * when just one is given) and, unless that build raises, uploads it.
   */
  lemma BinaryUploadRuns(o: Options, env: Env)
    requires forall e :: e in VersionPlan(o) + MetadataPlan(o) ==> !Fatal(e, env)
    requires !o.skipBinaryUpload && o.buildNumber.None? && (o.ipa.Some? || o.pkg.Some?)
    ensures SelectedPackage(o).Some? ==>
      BuildPackage(SelectedPackage(o).value, o.appleId, StagingDirectory, o.platform) in RunOf(o, env).events
    ensures o.ipa.Some? && o.pkg.None? ==>
      BuildPackage(Package(Ipa, o.ipa.value), o.appleId, StagingDirectory, o.platform) in RunOf(o, env).events
    ensures o.ipa.None? && o.pkg.Some? ==>
      BuildPackage(Package(Pkg, o.pkg.value), o.appleId, StagingDirectory, o.platform) in RunOf(o, env).events
    ensures (SelectedPackage(o).Some? ==>
        BuildPackage(SelectedPackage(o).value, o.appleId, StagingDirectory, o.platform) !in env.raising) ==>
      UploadPackage(o.appleId, TransporterFor(o, env), SelectedPackage(o)) in RunOf(o, env).events
  {
    var v, m, b, r, p, s :=
      VersionPlan(o), MetadataPlan(o), BinaryPlan(o, env), RejectPlan(o), PrecheckPlan(o), SubmitPlan(o, env);
    PlanFront(o, env);
    RunExecutesPlan(o, env);
    NextPartStarts(RunOf(o, env).events, v + m, b, r + (p + s), env);
  }
}
