/** The options bag that `Deliver::Runner` reads, as a typed record. */
module Configuration {
  import opened Wrappers

  /**
   * The subset of deliver's options the runner looks at.
   * An optional string is `Some` exactly when Ruby sees a truthy value;
   * an empty string is truthy in Ruby, so `Some("")` counts as set.
   * A boolean flag that is nil in Ruby is `false` here.
   */
  datatype Options = Options(
    appleId: string,              // `options[:app].apple_id`
    appIdentifier: string,        // `options[:app_identifier]`
    username: string,             // `options[:username]`
    platform: string,             // `options[:platform]`: "ios", "appletvos", "osx", ...
    appVersion: Option<string>,
    skipAppVersionUpdate: bool,
    skipMetadata: bool,
    skipScreenshots: bool,
    force: bool,
    ipa: Option<string>,
    pkg: Option<string>,
    buildNumber: Option<string>,
    skipBinaryUpload: bool,
    itcProvider: Option<string>,
    rejectIfPossible: bool,
    runPrecheckBeforeSubmit: bool,
    precheckDefaultRuleLevel: string,
    precheckIncludeInAppPurchases: bool,
    submitForReview: bool)

  /** Ruby's `to_s` on an optional string: nil renders as the empty string. */
  function ToS(v: Option<string>): string {
    match v
    case Some(s) => s
    case None => ""
  }
}
