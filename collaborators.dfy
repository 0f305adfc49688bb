/**
 * The collaborators the runner calls (Spaceship, the package builders,
 * ItunesTransporter, Precheck, the metadata uploaders) appear only through
 * the calls the runner makes to them (`Event`) and the outcomes they
 * return (`Env`).
 */
module Collaborators {
  import opened Wrappers

  /** The two binary families deliver can package. */
  datatype PackageKind = Ipa | Pkg

  /** The upload package a builder produces from one artifact. */
  datatype Package = Package(kind: PackageKind, artifact: string)

  /** An ItunesTransporter handle; only its provider short name matters here. */
  datatype Transporter = Transporter(provider: Option<string>)

  /** The configuration built for Precheck and installed before its audit runs. */
  datatype PrecheckConfig = PrecheckConfig(
    defaultRuleLevel: string,
    includeInAppPurchases: bool,
    appIdentifier: string,
    username: string)

  /**
   * The `contentProvider` record of a team. `id` is the raw
   * `contentProviderId` (nil is None); `name` is its display name.
   */
  datatype ContentProvider = ContentProvider(id: Option<string>, name: Option<string>)

  /** A team as Spaceship lists it; a team without a `contentProvider` record is malformed. */
  datatype Team = Team(contentProvider: Option<ContentProvider>)

  /** The teams of the logged-in account and the id of the team selected at login. */
  datatype Account = Account(teams: seq<Team>, selectedTeamId: string)

  /** What a Precheck audit does: report a pass, report a fail, or raise. */
  datatype Audit = Passed | Failed | Raised

  /** One call the runner makes to a collaborator, with the arguments it passes. */
  datatype Event =
    | EnsureVersion(appleId: string, version: string, platform: string)
    | CollectScreenshots
    | LoadMetadata
    | AssignDefaults
    | GenerateHtmlReport
    | CommitMetadata
    | CommitScreenshots
    | CommitPriceTier
    | BuildPackage(package: Package, appleId: string, stagingDir: string, platform: string)
    | UploadPackage(appleId: string, transporter: Transporter, upload: Option<Package>)
    | RejectVersion(appleId: string)
    | ConfigurePrecheck(config: PrecheckConfig)
    | RunPrecheck(config: PrecheckConfig)
    | SubmitForReview

  /**
   * What the collaborators do when called during one run.
   * `raising` holds the calls whose collaborator raises. A raise inside the
   * Precheck audit is `audit == Raised` instead, and is taken to be a
   * `StandardError` that the rescue catches, so a `RunPrecheck` call in
   * `raising` has no effect. Building and installing the Precheck
   * configuration (`ConfigurePrecheck`) is outside the rescue and can raise.
   * `providerIds` is None when `provider_ids` itself raises.
   */
  datatype Env = Env(
    raising: set<Event>,
    versionChanged: bool,
    uploadAccepted: bool,
    audit: Audit,
    account: Account,
    providerIds: Option<map<string, string>>)
}
