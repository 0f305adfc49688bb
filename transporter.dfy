/**
 * `transporter_for_selected_team`: which provider short name the binary
 * upload uses. An explicit `itc_provider` wins; with fewer than two teams
 * none is used; otherwise it is inferred from the selected team's name, and
 * any error on the way falls back to the generic transporter.
 */
module TransporterResolution {
  import opened Wrappers
  import opened Configuration
  import opened Collaborators

  /** Where the search for the selected team stopped. */
  datatype TeamSearch = Found(index: nat) | NotFound | Malformed(index: nat)

  /** Why inferring a provider failed; each is a Ruby exception the runner rescues. */
  datatype InferenceError = TeamNotFound | MalformedTeam | ProviderListFailed

  /** A team whose `contentProvider` record exists, so the `find` block can read it. */
  predicate WellFormed(t: Team) {
    t.contentProvider.Some?
  }

  /** The `find` block: the team's `contentProviderId.to_s` equals the selected team id. */
  predicate IsSelected(t: Team, teamId: string) {
    t.contentProvider.Some? && ToS(t.contentProvider.value.id) == teamId
  }

  /**
   * `teams.find` from position `from` on: the first selected team, unless
   * a malformed team before it makes the block raise.
   */
  function FindTeam(teams: seq<Team>, teamId: string, from: nat): (r: TeamSearch)
    requires from <= |teams|
    ensures r.Found? ==> from <= r.index < |teams| && IsSelected(teams[r.index], teamId)
    ensures r.Malformed? ==> from <= r.index < |teams| && !WellFormed(teams[r.index])
    ensures !r.NotFound? ==>
      forall j :: from <= j < r.index ==> WellFormed(teams[j]) && !IsSelected(teams[j], teamId)
    ensures r.NotFound? ==>
      forall j :: from <= j < |teams| ==> WellFormed(teams[j]) && !IsSelected(teams[j], teamId)
    decreases |teams| - from
  {
    if from == |teams| then NotFound
    else if !WellFormed(teams[from]) then Malformed(from)
    else if IsSelected(teams[from], teamId) then Found(from)
    else FindTeam(teams, teamId, from + 1)
  }

  /** A Ruby hash lookup; a nil key or a missing key yields nil. */
  function Lookup(ids: map<string, string>, key: Option<string>): (r: Option<string>)
    ensures r.Some? <==> key.Some? && key.value in ids
    ensures r.Some? ==> r.value == ids[key.value]
  {
    if key.Some? && key.value in ids then Some(ids[key.value]) else None
  }

  /** The begin-block of `transporter_for_selected_team`: the inferred provider, or the error it raises. */
  function InferProvider(account: Account, providerIds: Option<map<string, string>>): (r: Result<Option<string>, InferenceError>)
    ensures r == Err(TeamNotFound) <==> FindTeam(account.teams, account.selectedTeamId, 0).NotFound?
    ensures r == Err(MalformedTeam) <==> FindTeam(account.teams, account.selectedTeamId, 0).Malformed?
    ensures r == Err(ProviderListFailed) <==>
      FindTeam(account.teams, account.selectedTeamId, 0).Found? && providerIds.None?
    // An inferred provider is the id listed under the selected team's name.
    ensures r.Ok? && r.value.Some? ==>
      && providerIds.Some?
      && exists i :: 0 <= i < |account.teams| && IsSelected(account.teams[i], account.selectedTeamId)
          && account.teams[i].contentProvider.value.name.Some?
          && account.teams[i].contentProvider.value.name.value in providerIds.value
          && r.value.value == providerIds.value[account.teams[i].contentProvider.value.name.value]
  {
    match FindTeam(account.teams, account.selectedTeamId, 0)
    case NotFound => Err(TeamNotFound)
    case Malformed(_) => Err(MalformedTeam)
    case Found(i) =>
      var name := account.teams[i].contentProvider.value.name;
      match providerIds
      case None => Err(ProviderListFailed)
      case Some(ids) => Ok(Lookup(ids, name))
  }

  /** The transporter `upload_binary` uploads with. */
  function TransporterForSelectedTeam(itcProvider: Option<string>, account: Account,
                                      providerIds: Option<map<string, string>>): (t: Transporter)
    // An explicit provider, even "", is used as given, whatever the team count.
    ensures itcProvider.Some? ==> t == Transporter(itcProvider)
    // With fewer than two teams nothing is inferred.
    ensures itcProvider.None? && |account.teams| < 2 ==> t == Transporter(None)
    // Every failure of the inference falls back on the generic transporter.
    ensures itcProvider.None? && InferProvider(account, providerIds).Err? ==> t == Transporter(None)
    // With two or more teams, the selected team's listed provider is used.
    ensures itcProvider.None? && |account.teams| >= 2 ==>
      var r := FindTeam(account.teams, account.selectedTeamId, 0);
      r.Found? && providerIds.Some? ==>
        t == Transporter(Lookup(providerIds.value, account.teams[r.index].contentProvider.value.name))
  {
    var generic := Transporter(itcProvider);
    if !(itcProvider.None? && |account.teams| > 1) then generic
    else match InferProvider(account, providerIds)
      case Ok(provider) => Transporter(provider)
      case Err(_) => generic
  }

  /**
   * Whatever happens, the upload's provider is the explicit one, none, or
   * one of the ids the transporter lists.
   */
  lemma ProviderHasASource(itcProvider: Option<string>, account: Account, providerIds: Option<map<string, string>>)
    ensures var t := TransporterForSelectedTeam(itcProvider, account, providerIds);
      || t.provider == itcProvider
      || t.provider == None
      || (providerIds.Some? && t.provider.value in providerIds.value.Values)
  {
    var r := InferProvider(account, providerIds);
    if itcProvider.None? && |account.teams| > 1 && r.Ok? && r.value.Some? {
      var i :| 0 <= i < |account.teams| && IsSelected(account.teams[i], account.selectedTeamId)
          && account.teams[i].contentProvider.value.name.Some?
          && account.teams[i].contentProvider.value.name.value in providerIds.value
          && r.value.value == providerIds.value[account.teams[i].contentProvider.value.name.value];
      var name := account.teams[i].contentProvider.value.name.value;
      assert providerIds.value[name] in providerIds.value.Values;
    }
  }
}
