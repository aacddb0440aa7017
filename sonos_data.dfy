/**
 * `fetchSonosData`: list the households, fetch every household's groups and
 * players, give each one a display name, and merge them in household order.
 */
module SonosData {
  import opened Wrappers
  import opened Js
  import opened Http

  const NotAuthenticatedMessage := "Please authenticate first."
  const NoHouseholdsMessage := "No Sonos households found for the authenticated user."

  datatype Household = Household(id: string, name: Option<string>)
  datatype HouseholdsPayload = HouseholdsPayload(households: Option<seq<Household>>)

  /** A group or a player as the remote lists it. */
  datatype Device = Device(id: string, name: Option<string>)
  datatype GroupsPayload = GroupsPayload(groups: Option<seq<Device>>, players: Option<seq<Device>>)

  /** A dropdown choice. */
  datatype DropdownOption = DropdownOption(id: string, name: string)
  datatype Topology = Topology(groups: seq<DropdownOption>, players: seq<DropdownOption>)

  /** The answer to the groups request of one household, keyed by the household id the request names. */
  type GroupsServer = string -> Outcome<Response<GroupsPayload>>

  /** Line 73: the household suffix, used only when there is more than one household. */
  function HouseholdLabel(index: nat, count: nat): (suffix: string)
    ensures suffix == "" <==> count <= 1
  {
    if count > 1 then " (Household " + NatToString(index + 1) + ")" else ""
  }

  /** Two households of one account never share a suffix. */
  lemma {:induction false} HouseholdLabelsDiffer(i: nat, j: nat, count: nat)
    requires count > 1 && i != j
    ensures HouseholdLabel(i, count) != HouseholdLabel(j, count)
  {
    var open := " (Household ";
    var a, b := NatToString(i + 1), NatToString(j + 1);
    if open + a + ")" == open + b + ")" {
      var s := open + a + ")";
      assert a == s[|open|..|s| - 1];
      assert b == s[|open|..|s| - 1];
      NatToStringInjective(i + 1, j + 1);
    }
  }

  /** Lines 76-83: the remote name, or the kind and the last eight characters of the id; then the suffix. */
  function DisplayName(device: Device, kind: string, suffix: string): (name: string)
    ensures Truthy(device.name) ==> name == device.name.value + suffix
    ensures !Truthy(device.name) ==> name == kind + SliceLast(device.id, 8) + suffix
  {
    OrElse(device.name, kind + SliceLast(device.id, 8)) + suffix
  }

  /** The suffix is appended to the unsuffixed name. */
  lemma DisplayNameSuffix(device: Device, kind: string, suffix: string)
    ensures DisplayName(device, kind, suffix) == DisplayName(device, kind, "") + suffix
  {
    var base := OrElse(device.name, kind + SliceLast(device.id, 8));
    assert base + "" == base;
  }

  /** A common prefix cancels. */
  lemma PrefixCancels(base: string, x: string, y: string)
    requires base + x == base + y
    ensures x == y
  {
    assert (base + x)[|base|..] == x;
    assert (base + y)[|base|..] == y;
  }

  /**
   * Devices of different households that would show the same name (the same
   * remote name, or the same id fallback) get different display names.
   */
  lemma SameNameDifferentHouseholds(a: Device, b: Device, kind: string, i: nat, j: nat, count: nat)
    requires count > 1 && i != j && DisplayName(a, kind, "") == DisplayName(b, kind, "")
    ensures DisplayName(a, kind, HouseholdLabel(i, count)) != DisplayName(b, kind, HouseholdLabel(j, count))
  {
    var x, y := HouseholdLabel(i, count), HouseholdLabel(j, count);
    HouseholdLabelsDiffer(i, j, count);
    DisplayNameSuffix(a, kind, x);
    DisplayNameSuffix(b, kind, y);
    if DisplayName(a, kind, x) == DisplayName(b, kind, y) {
      PrefixCancels(DisplayName(a, kind, ""), x, y);
    }
  }

  /** `devices.map(...)`: the ids kept, each named by DisplayName. */
  function Options(devices: seq<Device>, kind: string, suffix: string): (options: seq<DropdownOption>)
    ensures |options| == |devices|
    ensures forall k :: 0 <= k < |devices| ==> options[k] == DropdownOption(devices[k].id, DisplayName(devices[k], kind, suffix))
  {
    if devices == [] then []
    else [DropdownOption(devices[0].id, DisplayName(devices[0], kind, suffix))] + Options(devices[1..], kind, suffix)
  }

  /** Lines 55-82: the options of the household at `index` among `count`. */
  function HouseholdOptions(household: Household, index: nat, count: nat, response: Outcome<Response<GroupsPayload>>): (r: Outcome<Topology>)
    ensures response.Failure? ==> r == Failure(response.error)
    ensures response.Success? && response.value.status != 200 ==>
      r == Failure(NewError("Failed to fetch groups for household " + household.id))
    ensures response.Success? && response.value.status == 200 && response.value.json.None? ==>
      r == Failure(ReadOfUndefined("groups"))
    ensures r.Success? <==> response.Success? && response.value.status == 200 && response.value.json.Some?
    ensures r.Success? ==>
      var payload := response.value.json.value.payload;
      var suffix := HouseholdLabel(index, count);
      && r.value.groups == Options(OrEmpty(payload.groups), "Group ", suffix)
      && r.value.players == Options(OrEmpty(payload.players), "Player ", suffix)
  {
    var res :- response;
    if res.status != 200 then Failure(NewError("Failed to fetch groups for household " + household.id))
    else if res.json.None? then Failure(ReadOfUndefined("groups"))
    else
      var payload := res.json.value.payload;
      var suffix := HouseholdLabel(index, count);
      Success(Topology(Options(OrEmpty(payload.groups), "Group ", suffix), Options(OrEmpty(payload.players), "Player ", suffix)))
  }

  /** `households.map(...)`: one settled request per household, in household order. */
  function PerHousehold(households: seq<Household>, server: GroupsServer): (results: seq<Outcome<Topology>>)
    ensures |results| == |households|
    ensures forall i :: 0 <= i < |households| ==> results[i] == HouseholdOptions(households[i], i, |households|, server(households[i].id))
  {
    seq(|households|, i requires 0 <= i < |households| => HouseholdOptions(households[i], i, |households|, server(households[i].id)))
  }

  /** `Promise.all`: every value when all succeed, else the error of one that failed. */
  function AllOf<T>(results: seq<Outcome<T>>): (r: Outcome<seq<T>>)
    ensures r.Success? <==> forall i :: 0 <= i < |results| ==> results[i].Success?
    ensures r.Success? ==> |r.value| == |results| && forall i :: 0 <= i < |results| ==> results[i] == Success(r.value[i])
    ensures r.Failure? ==> exists i :: 0 <= i < |results| && results[i] == Failure(r.error)
  {
    if results == [] then Success([])
    else
      var first :- results[0];
      var rest :- AllOf(results[1..]);
      Success([first] + rest)
  }

  /** `flatMap`: the lists one after the other. */
  function Flatten<T>(lists: seq<seq<T>>): (r: seq<T>)
    ensures |r| == TotalLength(lists)
  {
    if lists == [] then [] else lists[0] + Flatten(lists[1..])
  }

  function TotalLength<T>(lists: seq<seq<T>>): nat {
    if lists == [] then 0 else |lists[0]| + TotalLength(lists[1..])
  }

  /**
   * The order of the merge: element j of list i sits right after everything
   * of the lists before it.
   */
  lemma {:induction false} FlattenAt<T>(lists: seq<seq<T>>, i: nat, j: nat)
    requires i < |lists| && j < |lists[i]|
    ensures TotalLength(lists[..i]) + j < |Flatten(lists)|
    ensures Flatten(lists)[TotalLength(lists[..i]) + j] == lists[i][j]
  {
    if i == 0 {
      assert lists[..0] == [];
    } else {
      assert lists[..i][1..] == lists[1..][..i - 1];
      FlattenAt(lists[1..], i - 1, j);
    }
  }

  /** Everything in the merge comes from one of the lists. */
  lemma {:induction false} FlattenFrom<T>(lists: seq<seq<T>>, k: nat)
    requires k < |Flatten(lists)|
    ensures exists i, j :: 0 <= i < |lists| && 0 <= j < |lists[i]| && Flatten(lists)[k] == lists[i][j]
  {
    if |lists[0]| <= k {
      FlattenFrom(lists[1..], k - |lists[0]|);
      var i, j :| 0 <= i < |lists[1..]| && 0 <= j < |lists[1..][i]| && Flatten(lists[1..])[k - |lists[0]|] == lists[1..][i][j];
      assert lists[i + 1][j] == Flatten(lists)[k];
    } else {
      assert Flatten(lists)[k] == lists[0][k];
    }
  }

  /** The groups reported by a household's response, none when it gave no usable body. */
  function ReportedGroups(response: Outcome<Response<GroupsPayload>>): seq<Device> {
    if response.Success? && response.value.json.Some? then OrEmpty(response.value.json.value.payload.groups) else []
  }

  /** The players reported by a household's response, none when it gave no usable body. */
  function ReportedPlayers(response: Outcome<Response<GroupsPayload>>): seq<Device> {
    if response.Success? && response.value.json.Some? then OrEmpty(response.value.json.value.payload.players) else []
  }

  /** The named group options of each household, in household order. */
  function HouseholdGroupLists(households: seq<Household>, server: GroupsServer): (lists: seq<seq<DropdownOption>>)
    ensures |lists| == |households|
  {
    seq(|households|, i requires 0 <= i < |households| =>
      Options(ReportedGroups(server(households[i].id)), "Group ", HouseholdLabel(i, |households|)))
  }

  /** The named player options of each household, in household order. */
  function HouseholdPlayerLists(households: seq<Household>, server: GroupsServer): (lists: seq<seq<DropdownOption>>)
    ensures |lists| == |households|
  {
    seq(|households|, i requires 0 <= i < |households| =>
      Options(ReportedPlayers(server(households[i].id)), "Player ", HouseholdLabel(i, |households|)))
  }

  /** The households a 200 response with a body lists (an absent list counts as empty), and none otherwise. */
  function ListedHouseholds(response: Outcome<Response<HouseholdsPayload>>): seq<Household> {
    if response.Success? && response.value.status == 200 && response.value.json.Some?
    then OrEmpty(response.value.json.value.payload.households)
    else []
  }

  /** `fetchSonosData`. */
  function FetchSonosData(authData: Option<AuthData>, response: Outcome<Response<HouseholdsPayload>>, server: GroupsServer): (r: Outcome<Topology>)
    ensures authData.None? || !Truthy(authData.value.access_token) ==> r == Failure(NewError(NotAuthenticatedMessage))
    ensures authData.Some? && Truthy(authData.value.access_token) ==>
      && (response.Failure? ==> r == Failure(response.error))
      && (response.Success? && response.value.status != 200 ==>
            r == Failure(NewError("Failed to fetch households: " + response.value.content)))
      && (response.Success? && response.value.status == 200 && response.value.json.None? ==>
            r == Failure(ReadOfUndefined("households")))
      && (response.Success? && response.value.status == 200 && response.value.json.Some? && ListedHouseholds(response) == [] ==>
            r == Failure(NewError(NoHouseholdsMessage)))
    ensures r.Success? ==>
      var households := ListedHouseholds(response);
      && households != []
      && (forall i :: 0 <= i < |households| ==> PerHousehold(households, server)[i].Success?)
      && r.value.groups == Flatten(HouseholdGroupLists(households, server))
      && r.value.players == Flatten(HouseholdPlayerLists(households, server))
  {
    if authData.None? || !Truthy(authData.value.access_token) then Failure(NewError(NotAuthenticatedMessage))
    else
      var res :- response;
      if res.status != 200 then Failure(NewError("Failed to fetch households: " + res.content))
      else if res.json.None? then Failure(ReadOfUndefined("households"))
      else
        var households := OrEmpty(res.json.value.payload.households);
        if |households| == 0 then Failure(NewError(NoHouseholdsMessage))
        else
          var all :- AllOf(PerHousehold(households, server));
          var groups := seq(|all|, i requires 0 <= i < |all| => all[i].groups);
          var players := seq(|all|, i requires 0 <= i < |all| => all[i].players);
          assert groups == HouseholdGroupLists(households, server);
          assert players == HouseholdPlayerLists(households, server);
          Success(Topology(Flatten(groups), Flatten(players)))
  }

  /** TotalLength depends on the lengths alone. */
  lemma {:induction false} TotalLengthOfSameLengths<T, U>(a: seq<seq<T>>, b: seq<seq<U>>)
    requires |a| == |b| && forall i :: 0 <= i < |a| ==> |a[i]| == |b[i]|
    ensures TotalLength(a) == TotalLength(b)
  {
    if a != [] {
      TotalLengthOfSameLengths(a[1..], b[1..]);
    }
  }

  /**
   * Group j of household i, as the remote reported it, is the merged
   * option right after every group of the households before i: its id kept,
   * its display name suffixed with household i's label.
   */
  lemma DiscoveredGroupAt(authData: Option<AuthData>, response: Outcome<Response<HouseholdsPayload>>, server: GroupsServer, i: nat, j: nat)
    requires AllAnswered(authData, response, server)
    requires i < |ListedHouseholds(response)|
    requires j < |ReportedGroups(server(ListedHouseholds(response)[i].id))|
    ensures
      var households := ListedHouseholds(response);
      var groups := FetchSonosData(authData, response, server).value.groups;
      var device := ReportedGroups(server(households[i].id))[j];
      var offset := TotalLength(HouseholdGroupLists(households, server)[..i]);
      && offset + j < |groups|
      && groups[offset + j] == DropdownOption(device.id, DisplayName(device, "Group ", HouseholdLabel(i, |households|)))
  {
    FetchSucceedsIff(authData, response, server);
    FlattenAt(HouseholdGroupLists(ListedHouseholds(response), server), i, j);
  }

  /** The same for player j of household i. */
  lemma DiscoveredPlayerAt(authData: Option<AuthData>, response: Outcome<Response<HouseholdsPayload>>, server: GroupsServer, i: nat, j: nat)
    requires AllAnswered(authData, response, server)
    requires i < |ListedHouseholds(response)|
    requires j < |ReportedPlayers(server(ListedHouseholds(response)[i].id))|
    ensures
      var households := ListedHouseholds(response);
      var players := FetchSonosData(authData, response, server).value.players;
      var device := ReportedPlayers(server(households[i].id))[j];
      var offset := TotalLength(HouseholdPlayerLists(households, server)[..i]);
      && offset + j < |players|
      && players[offset + j] == DropdownOption(device.id, DisplayName(device, "Player ", HouseholdLabel(i, |households|)))
  {
    FetchSucceedsIff(authData, response, server);
    FlattenAt(HouseholdPlayerLists(ListedHouseholds(response), server), i, j);
  }

  /** Nothing is added or dropped: as many options as the households reported groups and players. */
  lemma DiscoveredCounts(authData: Option<AuthData>, response: Outcome<Response<HouseholdsPayload>>, server: GroupsServer)
    requires AllAnswered(authData, response, server)
    ensures
      var households := ListedHouseholds(response);
      var topology := FetchSonosData(authData, response, server).value;
      && |topology.groups| == TotalLength(seq(|households|, i requires 0 <= i < |households| => ReportedGroups(server(households[i].id))))
      && |topology.players| == TotalLength(seq(|households|, i requires 0 <= i < |households| => ReportedPlayers(server(households[i].id))))
  {
    FetchSucceedsIff(authData, response, server);
    var households := ListedHouseholds(response);
    TotalLengthOfSameLengths(HouseholdGroupLists(households, server),
      seq(|households|, i requires 0 <= i < |households| => ReportedGroups(server(households[i].id))));
    TotalLengthOfSameLengths(HouseholdPlayerLists(households, server),
      seq(|households|, i requires 0 <= i < |households| => ReportedPlayers(server(households[i].id))));
  }

  /** No group is invented: every merged group is a group some household reported, named for that household. */
  lemma DiscoveredGroupOrigin(authData: Option<AuthData>, response: Outcome<Response<HouseholdsPayload>>, server: GroupsServer, k: nat)
    requires AllAnswered(authData, response, server)
    ensures
      var households := ListedHouseholds(response);
      var groups := FetchSonosData(authData, response, server).value.groups;
      k < |groups| ==>
        exists i, j :: 0 <= i < |households| && 0 <= j < |ReportedGroups(server(households[i].id))| &&
          groups[k] == DropdownOption(ReportedGroups(server(households[i].id))[j].id,
            DisplayName(ReportedGroups(server(households[i].id))[j], "Group ", HouseholdLabel(i, |households|)))
  {
    FetchSucceedsIff(authData, response, server);
    var households := ListedHouseholds(response);
    var lists := HouseholdGroupLists(households, server);
    if k < |Flatten(lists)| {
      FlattenFrom(lists, k);
      var i, j :| 0 <= i < |lists| && 0 <= j < |lists[i]| && Flatten(lists)[k] == lists[i][j];
      assert j < |ReportedGroups(server(households[i].id))|;
    }
  }

  /** The same for players: every merged player is one some household reported. */
  lemma DiscoveredPlayerOrigin(authData: Option<AuthData>, response: Outcome<Response<HouseholdsPayload>>, server: GroupsServer, k: nat)
    requires AllAnswered(authData, response, server)
    ensures
      var households := ListedHouseholds(response);
      var players := FetchSonosData(authData, response, server).value.players;
      k < |players| ==>
        exists i, j :: 0 <= i < |households| && 0 <= j < |ReportedPlayers(server(households[i].id))| &&
          players[k] == DropdownOption(ReportedPlayers(server(households[i].id))[j].id,
            DisplayName(ReportedPlayers(server(households[i].id))[j], "Player ", HouseholdLabel(i, |households|)))
  {
    FetchSucceedsIff(authData, response, server);
    var households := ListedHouseholds(response);
    var lists := HouseholdPlayerLists(households, server);
    if k < |Flatten(lists)| {
      FlattenFrom(lists, k);
      var i, j :| 0 <= i < |lists| && 0 <= j < |lists[i]| && Flatten(lists)[k] == lists[i][j];
      assert j < |ReportedPlayers(server(households[i].id))|;
    }
  }

  /** With a single household no name carries a household suffix. */
  lemma SingleHouseholdNoSuffix(authData: Option<AuthData>, response: Outcome<Response<HouseholdsPayload>>, server: GroupsServer, j: nat)
    requires AllAnswered(authData, response, server)
    requires |ListedHouseholds(response)| == 1
    requires j < |ReportedGroups(server(ListedHouseholds(response)[0].id))|
    ensures
      var device := ReportedGroups(server(ListedHouseholds(response)[0].id))[j];
      FetchSonosData(authData, response, server).value.groups[j] ==
        DropdownOption(device.id, OrElse(device.name, "Group " + SliceLast(device.id, 8)))
  {
    FetchSucceedsIff(authData, response, server);
    var households := ListedHouseholds(response);
    assert HouseholdGroupLists(households, server)[..0] == [];
    DiscoveredGroupAt(authData, response, server, 0, j);
  }

  /** One household's groups request answered 200 with a body. */
  predicate Answered(response: Outcome<Response<GroupsPayload>>) {
    response.Success? && response.value.status == 200 && response.value.json.Some?
  }

  /** A token, and a 200 household list naming at least one household. */
  predicate HouseholdsListed(authData: Option<AuthData>, response: Outcome<Response<HouseholdsPayload>>) {
    && authData.Some? && Truthy(authData.value.access_token)
    && response.Success? && response.value.status == 200 && response.value.json.Some?
    && ListedHouseholds(response) != []
  }

  /** Households listed, and every one of them answered. */
  predicate AllAnswered(authData: Option<AuthData>, response: Outcome<Response<HouseholdsPayload>>, server: GroupsServer) {
    HouseholdsListed(authData, response) && forall h :: h in ListedHouseholds(response) ==> Answered(server(h.id))
  }

  /**
   * Once the households are listed, a failed discovery reports the error of
   * one of the household requests; which one, when several fail, is left open.
   */
  lemma HouseholdFailureSurfaces(authData: Option<AuthData>, response: Outcome<Response<HouseholdsPayload>>, server: GroupsServer)
    requires HouseholdsListed(authData, response)
    ensures FetchSonosData(authData, response, server).Failure? ==>
      var results := PerHousehold(ListedHouseholds(response), server);
      exists i :: 0 <= i < |results| && results[i] == Failure(FetchSonosData(authData, response, server).error)
  {
    var results := PerHousehold(ListedHouseholds(response), server);
    assert FetchSonosData(authData, response, server).Failure? ==>
      FetchSonosData(authData, response, server) == Failure(AllOf(results).error);
  }

  /** Discovery succeeds exactly when every request along the way was answered. */
  lemma FetchSucceedsIff(authData: Option<AuthData>, response: Outcome<Response<HouseholdsPayload>>, server: GroupsServer)
    ensures FetchSonosData(authData, response, server).Success? <==> AllAnswered(authData, response, server)
  {
    var households := ListedHouseholds(response);
    var results := PerHousehold(households, server);
    if AllAnswered(authData, response, server) {
      forall i | 0 <= i < |results|
        ensures results[i].Success?
      {
        assert households[i] in households;
      }
    }
    if FetchSonosData(authData, response, server).Success? {
      forall h | h in households
        ensures Answered(server(h.id))
      {
        var i :| 0 <= i < |households| && households[i] == h;
        assert results[i].Success?;
      }
    }
  }

  /**
   * The worked example: two households each reporting one group called
   * "Living Room" give two options told apart by their household suffix,
   * in household order.
   */
  lemma TwoLivingRoomsExample(authData: Option<AuthData>, response: Outcome<Response<HouseholdsPayload>>, server: GroupsServer, a: Device, b: Device)
    requires AllAnswered(authData, response, server)
    requires |ListedHouseholds(response)| == 2
    requires ReportedGroups(server(ListedHouseholds(response)[0].id)) == [a]
    requires ReportedGroups(server(ListedHouseholds(response)[1].id)) == [b]
    requires a.name == Some("Living Room") && b.name == Some("Living Room")
    ensures FetchSonosData(authData, response, server).value.groups ==
      [DropdownOption(a.id, "Living Room (Household 1)"), DropdownOption(b.id, "Living Room (Household 2)")]
  {
    FetchSucceedsIff(authData, response, server);
    var lists := HouseholdGroupLists(ListedHouseholds(response), server);
    assert FetchSonosData(authData, response, server).value.groups == Flatten(lists);
    FlattenTwo(lists);
    ExampleNames(a, b);
    assert lists[0] == [DropdownOption(a.id, DisplayName(a, "Group ", HouseholdLabel(0, 2)))];
    assert lists[1] == [DropdownOption(b.id, DisplayName(b, "Group ", HouseholdLabel(1, 2)))];
  }

  /** Two lists flatten to their concatenation. */
  lemma FlattenTwo<T>(lists: seq<seq<T>>)
    requires |lists| == 2
    ensures Flatten(lists) == lists[0] + lists[1]
  {
    assert lists[1..][1..] == [];
    assert lists[1] + [] == lists[1];
  }

  /** The suffixes of a two-household account. */
  lemma ExampleLabels()
    ensures HouseholdLabel(0, 2) == " (Household 1)"
    ensures HouseholdLabel(1, 2) == " (Household 2)"
  {
    assert NatToString(1) == "1";
    assert NatToString(2) == "2";
  }

  /** The example's two display names. */
  lemma ExampleNames(a: Device, b: Device)
    requires a.name == Some("Living Room") && b.name == Some("Living Room")
    ensures DisplayName(a, "Group ", HouseholdLabel(0, 2)) == "Living Room (Household 1)"
    ensures DisplayName(b, "Group ", HouseholdLabel(1, 2)) == "Living Room (Household 2)"
  {
    ExampleLabels();
  }
}
