/** The speaker-group dropdown: the wildcard choice, then every discovered group. */
module SonosGroups {
  import opened Wrappers
  import opened Http
  import opened SonosData

  const AllGroups := DropdownOption("*", "All Groups")

  /** `perform` of the groups trigger; the discovered players are not used. */
  function PerformSonosGroups(authData: Option<AuthData>, response: Outcome<Response<HouseholdsPayload>>, server: GroupsServer): (r: Outcome<seq<DropdownOption>>)
    ensures FetchSonosData(authData, response, server).Failure? ==> r == Failure(FetchSonosData(authData, response, server).error)
    ensures FetchSonosData(authData, response, server).Success? ==>
      var groups := FetchSonosData(authData, response, server).value.groups;
      && r.Success?
      && |r.value| == |groups| + 1
      && r.value[0] == AllGroups
      && r.value[1..] == groups
  {
    var data :- FetchSonosData(authData, response, server);
    Success([AllGroups] + data.groups)
  }

  /** The choices depend on the groups each household reports alone, never on its players. */
  lemma GroupsIgnorePlayers(authData: Option<AuthData>, response: Outcome<Response<HouseholdsPayload>>, a: GroupsServer, b: GroupsServer)
    requires AllAnswered(authData, response, a) && AllAnswered(authData, response, b)
    requires forall h :: h in ListedHouseholds(response) ==> ReportedGroups(a(h.id)) == ReportedGroups(b(h.id))
    ensures PerformSonosGroups(authData, response, a) == PerformSonosGroups(authData, response, b)
  {
    FetchSucceedsIff(authData, response, a);
    FetchSucceedsIff(authData, response, b);
    var households := ListedHouseholds(response);
    var la, lb := HouseholdGroupLists(households, a), HouseholdGroupLists(households, b);
    forall i | 0 <= i < |households|
      ensures la[i] == lb[i]
    {
      assert households[i] in households;
    }
    assert la == lb;
  }
}
