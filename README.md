# deliver's publish runner, modelled in Dafny

This project models `Deliver::Runner` from fastlane's `deliver` tool, the
orchestrator that publishes an app version to App Store Connect. A run
checks the remote version when `app_version` is given and
`skip_app_version_update` is off, uploads metadata, screenshots and the
price tier, uploads at most one binary, optionally rejects the version under
review, runs the Precheck metadata audit when `run_precheck_before_submit`
is set, and optionally submits for review.

The model records each run as the sequence of collaborator calls it makes:
App Store Connect, the package builders, the transporter, Precheck and
SubmitForReview. Collaborators are not modelled. What each of them answers
or raises is an input, `Collaborators.Env`:

- the calls that raise, building the Precheck configuration among them;
- whether `ensure_version!` changed the version;
- whether the transporter accepted the upload;
- the Precheck verdict, or that the audit raised;
- the team list and the selected team id;
- the transporter's provider-id table.

Modules:

- `Configuration`: the option bag as a record. A Ruby value that may be nil
  is an `Option`, and `Some` counts as truthy even when it holds `""`.
- `Collaborators`: the collaborator calls (`Event`) and the environment.
- `Execution`: `Execute(plan, env)` makes the planned calls up to and
  including the first fatal one. A call is fatal when its collaborator
  raises, or when it is an upload the transporter refuses. The run then
  ends `Aborted(call)` or `UploadFailed`; otherwise it ends `Completed`.
- `Policy`: the pure decisions. These are whether the HTML report is
  generated, which package is built, and the verdict of `precheck_app`.
- `TransporterResolution`: `transporter_for_selected_team`.
- `Deliver`: `Plan(o, env)`, the calls `run` makes when nothing raises, and
  the class `Runner`. Its methods mirror the Ruby methods one by one,
  append their calls to `trace`, and are proved to make exactly the calls of
  their part of the plan, up to the first fatal one.
- `RunProperties`: what every run guarantees, stated over the trace
  `RunOf(o, env).events`.

## Model

| member | source | states |
|---|---|---|
| Deliver.Runner.constructor | vendor/bundle/ruby/2.6.0/gems/fastlane-2.150.1/deliver/lib/deliver/runner.rb:19-20 | keeps the options and the collaborators' behaviour; no call has been made yet |
| Deliver.Runner.Run | vendor/bundle/ruby/2.6.0/gems/fastlane-2.150.1/deliver/lib/deliver/runner.rb:35-50 | the calls `run` makes and how it ends are the version check, metadata upload, binary upload, rejection, precheck and submission parts executed in that order, stopping at the first part that ends the run |
| RunProperties.PlanShape | vendor/bundle/ruby/2.6.0/gems/fastlane-2.150.1/deliver/lib/deliver/runner.rb:35-50 | `run` plans the version check, metadata, binary, rejection, precheck and submission parts, in that order (`Deliver.Plan` is this concatenation and has no contract of its own) |
| RunProperties.PartKinds | vendor/bundle/ruby/2.6.0/gems/fastlane-2.150.1/deliver/lib/deliver/runner.rb:35-50 | each part of the plan makes only calls of its own kind: version checks, metadata steps, builds and uploads, rejections, precheck steps, submissions |
| Deliver.RunOf | vendor/bundle/ruby/2.6.0/gems/fastlane-2.150.1/deliver/lib/deliver/runner.rb:35-50 | the six parts executed one after the other; a completed run made exactly the planned calls |
| Deliver.RunExecutesPlan | vendor/bundle/ruby/2.6.0/gems/fastlane-2.150.1/deliver/lib/deliver/runner.rb:35-50 | running the six parts one after the other is the same as executing the whole plan up to its first fatal call |
| RunProperties.RunFollowsPlan | vendor/bundle/ruby/2.6.0/gems/fastlane-2.150.1/deliver/lib/deliver/runner.rb:35-50 | a run's calls are a prefix of the plan; the run completes exactly when no planned call is fatal, and then it made every planned call |
| RunProperties.FaultFreeRunCompletes | vendor/bundle/ruby/2.6.0/gems/fastlane-2.150.1/deliver/lib/deliver/runner.rb:35-50 | when no collaborator raises and the upload is accepted, the run makes every planned call and completes |
| Deliver.VersionPlan | vendor/bundle/ruby/2.6.0/gems/fastlane-2.150.1/deliver/lib/deliver/runner.rb:36 | the version part makes a call exactly when `app_version` is non-empty and `skip_app_version_update` is off, and it is then the one `ensure_version!` with the app id, that version and the platform |
| RunProperties.VersionCheckCondition | vendor/bundle/ruby/2.6.0/gems/fastlane-2.150.1/deliver/lib/deliver/runner.rb:36 | the version is checked only when `app_version` is non-empty and `skip_app_version_update` is off; it is then the first call, with that version, and it comes before the metadata commit |
| Deliver.Runner.VerifyVersion | vendor/bundle/ruby/2.6.0/gems/fastlane-2.150.1/deliver/lib/deliver/runner.rb:87-103 | makes one `ensure_version!` call with the app id, version and platform; `changed` is what App Store Connect reports; a raise ends the run |
| Deliver.Runner.UploadMetadata | vendor/bundle/ruby/2.6.0/gems/fastlane-2.150.1/deliver/lib/deliver/runner.rb:106-124 | makes collect, load, assign-defaults, HTML validation, then the metadata, screenshot and price-tier commits, up to the first call that raises |
| RunProperties.MetadataPlanInOrder | vendor/bundle/ruby/2.6.0/gems/fastlane-2.150.1/deliver/lib/deliver/runner.rb:111-123 | the planned metadata steps are in their fixed order, each at most once |
| RunProperties.MetadataOrder | vendor/bundle/ruby/2.6.0/gems/fastlane-2.150.1/deliver/lib/deliver/runner.rb:111-123 | in every run, the metadata steps that happen are in their fixed order, each at most once |
| RunProperties.MetadataPlanCalls | vendor/bundle/ruby/2.6.0/gems/fastlane-2.150.1/deliver/lib/deliver/runner.rb:118-123 | the metadata plan always holds the three commits, and holds the HTML report exactly when validation is not skipped |
| RunProperties.MetadataAlwaysRuns | vendor/bundle/ruby/2.6.0/gems/fastlane-2.150.1/deliver/lib/deliver/runner.rb:36-37 | unless the version check or a metadata step raises, the run makes every planned metadata step (collect, load, assign defaults and the three commits), and makes the HTML report exactly when validation is not skipped |
| Policy.HtmlValidationRuns | vendor/bundle/ruby/2.6.0/gems/fastlane-2.150.1/deliver/lib/deliver/runner.rb:196-200 | the report is generated exactly when `force` is off and metadata and screenshots are not both skipped |
| Deliver.Runner.ValidateHtml | vendor/bundle/ruby/2.6.0/gems/fastlane-2.150.1/deliver/lib/deliver/runner.rb:196-200 | adds the generator call exactly when validation runs; a raise from the generator ends the run |
| RunProperties.HtmlReportCondition | vendor/bundle/ruby/2.6.0/gems/fastlane-2.150.1/deliver/lib/deliver/runner.rb:196-200 | no run makes the HTML report when validation is skipped |
| RunProperties.BinaryUploadRuns | vendor/bundle/ruby/2.6.0/gems/fastlane-2.150.1/deliver/lib/deliver/runner.rb:36-42 | unless the version check or a metadata step ends the run, a run meeting the binary condition builds the selected package (the lone ipa or pkg when only one is given) and, unless that build raises, uploads it |
| RunProperties.NextPartStarts | vendor/bundle/ruby/2.6.0/gems/fastlane-2.150.1/deliver/lib/deliver/runner.rb:35-50 | after a part without fatal calls, the next part's first call is made, and its second too when the first is not fatal |
| Deliver.BinaryPlan | vendor/bundle/ruby/2.6.0/gems/fastlane-2.150.1/deliver/lib/deliver/runner.rb:39-42 | the binary part makes calls exactly when `skip_binary_upload` is off, no `build_number` is given and an ipa or pkg is; it then ends with the upload of the selected package by the resolved transporter, preceded by its build exactly when a package is selected |
| RunProperties.BinaryUploadCondition | vendor/bundle/ruby/2.6.0/gems/fastlane-2.150.1/deliver/lib/deliver/runner.rb:39-42 | a build or upload happens only when `skip_binary_upload` is off, no `build_number` is given and an ipa or pkg is; each happens at most once; a completed run meeting the condition has uploaded |
| RunProperties.BinaryPlanOnce | vendor/bundle/ruby/2.6.0/gems/fastlane-2.150.1/deliver/lib/deliver/runner.rb:140-157 | `upload_binary` plans at most one build and at most one upload |
| Policy.SelectedPackage | vendor/bundle/ruby/2.6.0/gems/fastlane-2.150.1/deliver/lib/deliver/runner.rb:130-154 | a lone ipa or pkg is chosen whatever the platform; with both, "ios"/"appletvos" choose the ipa, "osx" the pkg and any other platform neither; a chosen package comes from the artifact of its own kind |
| Deliver.Runner.UploadBinary | vendor/bundle/ruby/2.6.0/gems/fastlane-2.150.1/deliver/lib/deliver/runner.rb:127-159 | builds the selected package, if any, into the staging directory, then uploads with the resolved transporter; a raise or a refused upload ends the run |
| RunProperties.BinaryPlanCalls | vendor/bundle/ruby/2.6.0/gems/fastlane-2.150.1/deliver/lib/deliver/runner.rb:140-157 | the planned build is of the selected package in "/tmp"; the planned upload names that package and the resolved transporter |
| RunProperties.UploadsSelectedPackage | vendor/bundle/ruby/2.6.0/gems/fastlane-2.150.1/deliver/lib/deliver/runner.rb:140-157 | every build a run makes is of the selected package, and every upload names that package and the transporter resolved for the selected team |
| RunProperties.RefusedUploadEndsRun | vendor/bundle/ruby/2.6.0/gems/fastlane-2.150.1/deliver/lib/deliver/runner.rb:157-158 | an upload the run makes that the transporter refuses without raising ends the run with an upload failure, as its last call |
| RunProperties.UploadFailureEndsRun | vendor/bundle/ruby/2.6.0/gems/fastlane-2.150.1/deliver/lib/deliver/runner.rb:157-158 | a run ends with an upload failure only when the transporter refused the upload; the upload is then the last call, with no rejection, precheck or submission |
| TransporterResolution.Lookup | vendor/bundle/ruby/2.6.0/gems/fastlane-2.150.1/deliver/lib/deliver/runner.rb:187 | the provider-id table yields an id exactly when the team has a name listed in it, and the id is the one listed under that name |
| TransporterResolution.FindTeam | vendor/bundle/ruby/2.6.0/gems/fastlane-2.150.1/deliver/lib/deliver/runner.rb:185 | finds the first team whose provider id, as a string, is the selected team id; reports a team with no provider record that the search reaches, and otherwise that none matched |
| TransporterResolution.InferProvider | vendor/bundle/ruby/2.6.0/gems/fastlane-2.150.1/deliver/lib/deliver/runner.rb:184-189 | fails exactly when no team matches, when a team without a provider record is reached, or when the provider-id list raises; a provider it infers is the id listed under the selected team's name |
| TransporterResolution.TransporterForSelectedTeam | vendor/bundle/ruby/2.6.0/gems/fastlane-2.150.1/deliver/lib/deliver/runner.rb:180-194 | an explicit `itc_provider` is used as given; with fewer than two teams nothing is inferred; any inference failure falls back on the generic transporter; otherwise the selected team's listed provider is used |
| TransporterResolution.ProviderHasASource | vendor/bundle/ruby/2.6.0/gems/fastlane-2.150.1/deliver/lib/deliver/runner.rb:180-194 | the upload's provider is the explicit one, none, or one of the ids the transporter lists |
| Deliver.Runner.RejectVersionIfPossible | vendor/bundle/ruby/2.6.0/gems/fastlane-2.150.1/deliver/lib/deliver/runner.rb:161-169 | makes one rejection call for the app; what App Store Connect answers only selects a message |
| Deliver.RejectPlan | vendor/bundle/ruby/2.6.0/gems/fastlane-2.150.1/deliver/lib/deliver/runner.rb:46 | the rejection part rejects the app's version exactly when `reject_if_possible` is on, and makes no other call |
| RunProperties.RejectionGating | vendor/bundle/ruby/2.6.0/gems/fastlane-2.150.1/deliver/lib/deliver/runner.rb:46 | the version is rejected only with `reject_if_possible`, a completed run with it has rejected, and rejection comes before precheck |
| Deliver.Runner.PrecheckApp | vendor/bundle/ruby/2.6.0/gems/fastlane-2.150.1/deliver/lib/deliver/runner.rb:53-83 | makes no call and passes when `run_precheck_before_submit` is off; otherwise builds and installs the Precheck configuration from the options, outside the rescue, so a raise there ends the run; then makes one audit call and, having completed, returns the audit's verdict, or a pass when the audit raises |
| Policy.PrecheckPasses | vendor/bundle/ruby/2.6.0/gems/fastlane-2.150.1/deliver/lib/deliver/runner.rb:53-82 | precheck passes when it is switched off, when the audit passes and when the audit raises; it fails only when the audit fails |
| RunProperties.PrecheckInvocation | vendor/bundle/ruby/2.6.0/gems/fastlane-2.150.1/deliver/lib/deliver/runner.rb:53-75 | the Precheck configuration is built and the audit run only with `run_precheck_before_submit`, both with the rule level, in-app-purchase flag, app identifier and username from the options |
| Deliver.PrecheckEndsRunOnlyInConfiguration | vendor/bundle/ruby/2.6.0/gems/fastlane-2.150.1/deliver/lib/deliver/runner.rb:70-80 | the precheck part ends the run exactly when it is switched on and building or installing the configuration raises, after that one call; otherwise it makes both calls and completes, whatever the audit does |
| Deliver.PrecheckPlan | vendor/bundle/ruby/2.6.0/gems/fastlane-2.150.1/deliver/lib/deliver/runner.rb:53-83 | precheck makes calls exactly when `run_precheck_before_submit` is on, and then configures Precheck and audits, both with the configuration from the options |
| Policy.PrecheckConfigOf | vendor/bundle/ruby/2.6.0/gems/fastlane-2.150.1/deliver/lib/deliver/runner.rb:63-68 | the Precheck configuration carries the rule level, the in-app-purchase flag, the app identifier and the username of the options |
| RunProperties.ExecuteNeverAbortsOnPrecheck | vendor/bundle/ruby/2.6.0/gems/fastlane-2.150.1/deliver/lib/deliver/runner.rb:73-80 | no plan's execution ends at an audit call: every raise from the audit is taken to be a `StandardError`, which the rescue catches |
| RunProperties.PrecheckNeverAborts | vendor/bundle/ruby/2.6.0/gems/fastlane-2.150.1/deliver/lib/deliver/runner.rb:73-80 | no run ends because the audit raised a `StandardError`, the only kind of raise from the audit that the model has |
| Deliver.Runner.SubmitForReview | vendor/bundle/ruby/2.6.0/gems/fastlane-2.150.1/deliver/lib/deliver/runner.rb:171-173 | makes one submission call; a raise ends the run |
| Deliver.SubmitPlan | vendor/bundle/ruby/2.6.0/gems/fastlane-2.150.1/deliver/lib/deliver/runner.rb:48-49 | the submission part submits exactly when `submit_for_review` is on and precheck passed, and makes no other call |
| RunProperties.SubmissionGating | vendor/bundle/ruby/2.6.0/gems/fastlane-2.150.1/deliver/lib/deliver/runner.rb:48-49 | submission happens only with `submit_for_review` when precheck passed, and a completed run meeting both has submitted; precheck, the metadata commit and the binary upload all come before it |
| Execution.FirstFatal | vendor/bundle/ruby/2.6.0/gems/fastlane-2.150.1/deliver/lib/deliver/runner.rb:35-50 | the position of the first call that ends the run: every earlier call is not fatal, and the call there is fatal |
| Execution.ExecuteStopsAtFirstFatal | vendor/bundle/ruby/2.6.0/gems/fastlane-2.150.1/deliver/lib/deliver/runner.rb:35-50 | an execution is a prefix of its plan; it completes exactly when no call is fatal; otherwise its last call is the first fatal one and decides the outcome |
| Execution.ExecuteConcat | vendor/bundle/ruby/2.6.0/gems/fastlane-2.150.1/deliver/lib/deliver/runner.rb:35-50 | executing two plans back to back is executing the first and, if it completed, the second |
| Execution.ExecuteRunsNonFatalPrefix | vendor/bundle/ruby/2.6.0/gems/fastlane-2.150.1/deliver/lib/deliver/runner.rb:35-50 | a leading part without fatal calls is made in full |
| Execution.FatalOutcome | vendor/bundle/ruby/2.6.0/gems/fastlane-2.150.1/deliver/lib/deliver/runner.rb:157-158 | a call that ends the run never leaves it completed; it aborts at that call exactly when the call raises, and is otherwise an upload failure |
| Execution.ExecuteEndsAtFatalCall | vendor/bundle/ruby/2.6.0/gems/fastlane-2.150.1/deliver/lib/deliver/runner.rb:35-50 | a fatal call that an execution makes is its last call and decides its outcome |

## Left out

- Login, team selection, DetectValues, the summary table and every message
  (runner.rb lines 19-33 and 44) are not modelled, because they only print
  or only set up a session.
- Collaborator internals are not modelled. These are App Store Connect,
  the package builders, the transporter, Precheck, HtmlGenerator, the
  metadata, screenshot and price-tier uploaders, and SubmitForReview. Each
  is one call whose result or raise is an input.
- Ruby exceptions are not modelled as exceptions. A raise that escapes
  `run` is the outcome `Aborted(call)`. The `user_error!` for a refused
  upload is `UploadFailed`. A rescued raise is a variant of the input.
- `Spaceship::Tunes.client.teams.count` (line 182) runs outside the
  `begin` block, so a raise there would escape `run`. The team list is an
  input value, so that raise is not modelled.
- The two `FastlaneCore::ItunesTransporter.new` calls (lines 181 and 189)
  are not modelled as calls; the transporter is a value computed from the
  options and the team list. A raise from line 181 would escape `run` after
  the package was built and before any upload; a raise from line 189 would
  be rescued and fall back on the generic transporter. The model has
  neither path: once the build does not raise, the upload is made with the
  transporter `transporter_for_selected_team` selects.
- `rescue => ex` (lines 76 and 190) catches only `StandardError`. The model
  treats every raise from the Precheck audit and from the provider
  inference as rescued, so an `Interrupt`, `SystemExit`, `ScriptError` or
  `SystemStackError` raised there, which would escape `run`, is not
  modelled.
- RunProperties.ExecuteNeverAbortsOnPrecheck: holds because every audit
  raise is modelled as a rescued `StandardError`; a raise outside
  `StandardError` would end the run at the audit.
- RunProperties.PrecheckNeverAborts: likewise covers only the audit's
  `StandardError` raises.
- The transporter's username and password arguments (lines 181 and 189)
  are the same for every transporter. The model records only the provider.
- `Platform.map` (line 95) is not modelled. The version check records the
  option's platform string instead.
- A nil `platform` option is modelled as a string. With both artifacts
  given, any string other than "ios", "appletvos" or "osx" selects neither
  package, as nil does.
- `AlarmLogicController.swift` is not part of this model. It holds no
  logic of the runner.
- `reject_version_if_possible` and `validate_html` have no rescue, so a
  raise from either ends the run (lines 161-169 and 196-200).
- `itc_provider` is tested only for nil (line 182), so an explicit `""` is
  used as given.
- `FastlaneCore::Configuration.create` and the assignment to
  `Precheck.config` (lines 70-71) are one call, `ConfigurePrecheck`. A raise
  from either ends the run.
- `EnsureVersion` stands for the `Spaceship::ConnectAPI::App.get` lookup
  (line 93) plus the `ensure_version!` call it feeds (line 96).
  `RejectVersion` likewise stands for `App.get` (line 164) plus
  `reject_version_if_possible!` (line 166). A raise from the lookup is
  recorded as that one event raising, so in such a trace the event's
  second half was never made.
