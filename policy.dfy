/** The runner's pure decisions: HTML validation, binary selection, the precheck verdict. */
module Policy {
  import opened Wrappers
  import opened Configuration
  import opened Collaborators

  /** The directory the package builders stage their output in. */
  const StagingDirectory: string := "/tmp"

  /**
   * `validate_html`: no HTML report when forced, or when both metadata and
   * screenshots are skipped.
   */
  function HtmlValidationRuns(o: Options): (runs: bool)
    ensures runs <==> !o.force && (!o.skipMetadata || !o.skipScreenshots)
  {
    if o.force then false
    else if o.skipMetadata && o.skipScreenshots then false
    else true
  }

  /**
   * The package `upload_binary` builds, or None when it builds none.
   * The platform is consulted only when both an ipa and a pkg are given.
   */
  function SelectedPackage(o: Options): (p: Option<Package>)
    // With one artifact, that artifact is chosen whatever the platform.
    ensures o.ipa.Some? && o.pkg.None? ==> p == Some(Package(Ipa, o.ipa.value))
    ensures o.ipa.None? && o.pkg.Some? ==> p == Some(Package(Pkg, o.pkg.value))
    ensures o.ipa.None? && o.pkg.None? ==> p == None
    // With both, "ios" and "appletvos" choose the ipa, "osx" the pkg, anything else neither.
    ensures o.ipa.Some? && o.pkg.Some? ==>
      && (p == Some(Package(Ipa, o.ipa.value)) <==> o.platform == "ios" || o.platform == "appletvos")
      && (p == Some(Package(Pkg, o.pkg.value)) <==> o.platform == "osx")
      && (p == None <==> o.platform != "ios" && o.platform != "appletvos" && o.platform != "osx")
    // A chosen package is built from the artifact of its own kind.
    ensures p.Some? && p.value.kind == Ipa ==> o.ipa == Some(p.value.artifact)
    ensures p.Some? && p.value.kind == Pkg ==> o.pkg == Some(p.value.artifact)
  {
    var uploadIpa := o.ipa.Some? && (o.pkg.Some? ==> o.platform in ["ios", "appletvos"]);
    var uploadPkg := o.pkg.Some? && (o.ipa.Some? ==> o.platform == "osx");
    if uploadIpa then Some(Package(Ipa, o.ipa.value))
    else if uploadPkg then Some(Package(Pkg, o.pkg.value))
    else None
  }

  /**
   * The verdict of `precheck_app`: a pass when the gate is off, when the
   * audit passes and when the audit raises; a fail only when the audit fails.
   */
  function PrecheckPasses(o: Options, audit: Audit): (pass: bool)
    ensures !o.runPrecheckBeforeSubmit ==> pass
    ensures o.runPrecheckBeforeSubmit && audit == Passed ==> pass
    ensures o.runPrecheckBeforeSubmit && audit == Raised ==> pass
    ensures o.runPrecheckBeforeSubmit && audit == Failed ==> !pass
  {
    if !o.runPrecheckBeforeSubmit then true
    else match audit
      case Passed => true
      case Failed => false
      case Raised => true
  }

  /** The four options `precheck_app` hands to Precheck, each under its Precheck name. */
  function PrecheckConfigOf(o: Options): (c: PrecheckConfig)
    ensures c.defaultRuleLevel == o.precheckDefaultRuleLevel
    ensures c.includeInAppPurchases == o.precheckIncludeInAppPurchases
    ensures c.appIdentifier == o.appIdentifier && c.username == o.username
  {
    PrecheckConfig(o.precheckDefaultRuleLevel, o.precheckIncludeInAppPurchases, o.appIdentifier, o.username)
  }
}
