/**
 * The decision logic of the driver and hub list helpers: how a driver's
 * permissions and details are rendered, which hubs are offered for selection,
 * which channel drivers are listed, and what is preselected in a prompt.
 *
 * The REST client is replaced by functions passed as parameters (the device
 * list, `locations.get`, `getDriverChannelMetaInfo`, ...), the table renderer by
 * uninterpreted string-valued functions, and the list/select helpers of the
 * CLI library by the request this code hands to them.
 */
module DriversUtil {
  import opened Wrappers
  import opened Strings
  import opened Sequences

  // ---------------------------------------------------------------------------
  // Edge driver details
  // ---------------------------------------------------------------------------

  datatype Permission = Permission(name: string)
  datatype ProfileKey = ProfileKey(id: string, majorVersion: nat)
  datatype Fingerprint = Fingerprint(id: string, kind: string, deviceLabel: string)

  /** The fields of an edge driver that this file reads; absent optional fields are `None`. */
  datatype EdgeDriver = EdgeDriver(
    driverId: string,
    name: string,
    version: string,
    packageKey: string,
    description: Option<string>,
    permissions: Option<seq<Permission>>,
    deviceIntegrationProfiles: seq<ProfileKey>,
    fingerprints: Option<seq<Fingerprint>>)

  function PermissionNames(permissions: seq<Permission>): (names: seq<string>)
    ensures |names| == |permissions|
    ensures forall i :: 0 <= i < |names| ==> names[i] == permissions[i].name
  {
    seq(|permissions|, i requires 0 <= i < |permissions| => permissions[i].name)
  }

  /**
   * The "Permissions" cell: the permission names joined by newlines, or
   * "none". The fallback is taken whenever the join is the empty string, which
   * is the case for no permissions and also for a single unnamed permission.
   */
  function PermissionsValue(driver: EdgeDriver): (value: string)
    ensures driver.permissions.None? ==> value == "none"
    ensures driver.permissions.Some? && |driver.permissions.value| == 0 ==> value == "none"
    ensures driver.permissions == Some([Permission("")]) ==> value == "none"
    ensures driver.permissions.Some? && driver.permissions.value != []
            && driver.permissions.value != [Permission("")]
            ==> value == Join(PermissionNames(driver.permissions.value), "\n")
  {
    if driver.permissions.None? then "none"
    else
      var names := PermissionNames(driver.permissions.value);
      var joined := Join(names, "\n");
      JoinIsEmpty(names, "\n");
      if joined == "" then "none" else joined
  }

  /**
   * When the cell lists permissions and no name contains a newline, splitting
   * the cell at newlines gives back every permission name, in order.
   */
  lemma PermissionsValueListsNames(driver: EdgeDriver)
    requires driver.permissions.Some? && driver.permissions.value != []
    requires driver.permissions.value != [Permission("")]
    requires forall p :: p in driver.permissions.value ==> '\n' !in p.name
    ensures SplitOn(PermissionsValue(driver), '\n') == PermissionNames(driver.permissions.value)
  {
    var names := PermissionNames(driver.permissions.value);
    forall i | 0 <= i < |names| ensures '\n' !in names[i] {
      assert driver.permissions.value[i] in driver.permissions.value;
    }
    SplitJoinRoundTrip(names, '\n');
  }

  /** A column of a details table: a property of the driver, or a labelled computed value. */
  datatype Field = Prop(name: string) | Computed(heading: string, value: EdgeDriver -> string)

  /**
   * The table renderer of the CLI library, uninterpreted: one function for
   * `buildTableFromItem` and one per element type given to `buildTableFromList`.
   */
  datatype TableGenerator = TableGenerator(
    buildTableFromItem: (EdgeDriver, seq<Field>) -> string,
    buildProfilesTable: (seq<ProfileKey>, seq<string>) -> string,
    buildFingerprintsTable: (seq<Fingerprint>, seq<string>) -> string)

  const BasicInfoFields: seq<Field> := [
    Prop("driverId"), Prop("name"), Prop("version"), Prop("packageKey"), Prop("description"),
    Computed("Permissions", PermissionsValue)]
  const ProfileColumns: seq<string> := ["id", "majorVersion"]
  const FingerprintColumns: seq<string> := ["id", "type", "deviceLabel"]
  const NoFingerprintsText: string := "No fingerprints specified."

  /** The fingerprints section: a fixed sentence unless the driver has at least one fingerprint. */
  function FingerprintsSection(tableGenerator: TableGenerator, driver: EdgeDriver): (section: string)
    ensures driver.fingerprints.None? || driver.fingerprints.value == [] ==> section == NoFingerprintsText
    ensures driver.fingerprints.Some? && driver.fingerprints.value != []
            ==> section == "Fingerprints\n" + tableGenerator.buildFingerprintsTable(driver.fingerprints.value, FingerprintColumns)
  {
    if driver.fingerprints.Some? && |driver.fingerprints.value| > 0 then
      "Fingerprints\n" + tableGenerator.buildFingerprintsTable(driver.fingerprints.value, FingerprintColumns)
    else
      NoFingerprintsText
  }

  /** The four sections of a driver's details, top to bottom. */
  function TableSections(tableGenerator: TableGenerator, driver: EdgeDriver, summarizedText: string): seq<string>
  {
    [ "Basic Information\n" + tableGenerator.buildTableFromItem(driver, BasicInfoFields),
      "Device Integration Profiles\n" + tableGenerator.buildProfilesTable(driver.deviceIntegrationProfiles, ProfileColumns),
      FingerprintsSection(tableGenerator, driver),
      summarizedText ]
  }

  /**
   * The details text of a driver: its sections in order, separated by blank
   * lines; it opens with the basic information and closes with the summary note.
   */
  function BuildTableOutput(tableGenerator: TableGenerator, driver: EdgeDriver, summarizedText: string): (output: string)
    ensures output == Join(TableSections(tableGenerator, driver, summarizedText), "\n\n")
    ensures "Basic Information\n" <= output
    ensures |output| >= |summarizedText| && output[|output| - |summarizedText|..] == summarizedText
  {
    var basicInfo := tableGenerator.buildTableFromItem(driver, BasicInfoFields);
    var deviceIntegrationProfiles := "Device Integration Profiles\n" +
      tableGenerator.buildProfilesTable(driver.deviceIntegrationProfiles, ProfileColumns);
    var fingerprints := FingerprintsSection(tableGenerator, driver);
    var output := "Basic Information\n" + basicInfo + "\n\n" +
      deviceIntegrationProfiles + "\n\n" +
      fingerprints + "\n\n" +
      summarizedText;
    JoinOfFour("Basic Information\n" + basicInfo, deviceIntegrationProfiles, fingerprints, summarizedText, "\n\n");
    assert output == ("Basic Information\n" + basicInfo + "\n\n" + deviceIntegrationProfiles + "\n\n" + fingerprints + "\n\n") + summarizedText;
    output
  }

  // ---------------------------------------------------------------------------
  // Preselection for the driver and hub prompts
  // ---------------------------------------------------------------------------

  /** The options after the CLI library has filled in its defaults. */
  datatype ChooseOptions = ChooseOptions(allowIndex: bool, useConfigDefault: bool)

  /** The key names given to the list/select helpers. */
  /** The list configuration; `listTableFieldDefinitions` is empty where none is given. */
  datatype ListConfig = ListConfig(itemName: string, primaryKeyName: string, sortKeyName: string,
                                   listTableFieldDefinitions: seq<string>)

  /** What is handed to `selectFromList` besides the list function. */
  datatype SelectRequest = SelectRequest(
    config: ListConfig,
    preselectedId: Option<string>,
    promptMessage: string,
    configKeyForDefaultValue: Option<string>)

  const DriverListConfig: ListConfig := ListConfig("driver", "driverId", "name", [])
  const HubListConfig: ListConfig := ListConfig("hub", "deviceId", "name", ["label", "name", "deviceId"])
  const DefaultHubConfigKey: string := "defaultHub"

  /**
   * The request `chooseDriver` makes. `translateToId` stands for
   * `stringTranslateToId` over the driver list: what it resolves the
   * command-line id or index to.
   */
  function ChooseDriverRequest(options: ChooseOptions, promptMessage: string, commandLineDriverId: Option<string>,
                               translateToId: Option<string> -> Option<string>): (request: SelectRequest)
    ensures request.config == DriverListConfig && request.promptMessage == promptMessage
    ensures !options.allowIndex ==> request.preselectedId == commandLineDriverId
    ensures options.allowIndex ==> request.preselectedId == translateToId(commandLineDriverId)
    ensures request.configKeyForDefaultValue.None?
  {
    var preselectedId := if options.allowIndex then translateToId(commandLineDriverId) else commandLineDriverId;
    SelectRequest(DriverListConfig, preselectedId, promptMessage, None)
  }

  /** JavaScript truthiness of an optional string. */
  predicate Truthy(s: Option<string>) {
    s.Some? && s.value != ""
  }

  /**
   * The request `chooseHub` makes. An absent or empty command-line hub id
   * preselects nothing (and nothing is translated); the configured default hub
   * is offered exactly when the options ask for it.
   */
  function ChooseHubRequest(options: ChooseOptions, promptMessage: string, commandLineHubId: Option<string>,
                            translateToId: string -> Option<string>): (request: SelectRequest)
    ensures request.config == HubListConfig && request.promptMessage == promptMessage
    ensures !Truthy(commandLineHubId) ==> request.preselectedId.None?
    ensures Truthy(commandLineHubId) && !options.allowIndex ==> request.preselectedId == commandLineHubId
    ensures Truthy(commandLineHubId) && options.allowIndex
            ==> request.preselectedId == translateToId(commandLineHubId.value)
    ensures request.configKeyForDefaultValue.Some? <==> options.useConfigDefault
    ensures request.configKeyForDefaultValue.Some? ==> request.configKeyForDefaultValue.value == DefaultHubConfigKey
  {
    var preselectedId :=
      if Truthy(commandLineHubId) then
        (if options.allowIndex then translateToId(commandLineHubId.value) else commandLineHubId)
      else None;
    var configKeyForDefaultValue := if options.useConfigDefault then Some(DefaultHubConfigKey) else None;
    SelectRequest(HubListConfig, preselectedId, promptMessage, configKeyForDefaultValue)
  }

  // ---------------------------------------------------------------------------
  // The hub list offered by chooseHub: only hubs in locations the user owns
  // ---------------------------------------------------------------------------

  datatype Device = Device(deviceId: string, name: string, displayLabel: string, locationId: Option<string>)

  /** A location as returned by `locations.get(id, { allowed: true })`; a null or missing `allowed` is `None`. */
  datatype Location = Location(locationId: Option<string>, allowed: Option<seq<string>>)

  datatype Warning = HubWithoutLocation(hub: Device) | FilteringOutLocation(location: Location)

  const OwnerPermission: string := "d:locations"

  /** The location grants the owner permission (it is not merely shared with the user). */
  predicate Owned(location: Location) {
    location.allowed.Some? && OwnerPermission in location.allowed.value
  }

  /**
   * The contents of the location id set after the first pass, in insertion
   * order (the order a JavaScript `Set` iterates in): each defined
   * `locationId` once, in the order first seen.
   */
  function CollectLocationIds(hubs: seq<Device>): (ids: seq<string>)
    ensures Distinct(ids)
    ensures forall id :: id in ids <==> exists hub :: hub in hubs && hub.locationId == Some(id)
    decreases |hubs|
  {
    if hubs == [] then []
    else
      var ids := CollectLocationIds(hubs[..|hubs| - 1]);
      var hub := hubs[|hubs| - 1];
      assert hubs == hubs[..|hubs| - 1] + [hub];
      if hub.locationId.Some? && hub.locationId.value !in ids then ids + [hub.locationId.value] else ids
  }

  /** The warnings of the first pass: one per hub without a location, in list order. */
  function MissingLocationWarnings(hubs: seq<Device>): (warnings: seq<Warning>)
    ensures forall hub :: hub in hubs && hub.locationId.None? ==> HubWithoutLocation(hub) in warnings
    ensures forall w :: w in warnings ==> w.HubWithoutLocation? && w.hub in hubs && w.hub.locationId.None?
    decreases |hubs|
  {
    if hubs == [] then []
    else
      var hub := hubs[|hubs| - 1];
      assert hubs == hubs[..|hubs| - 1] + [hub];
      MissingLocationWarnings(hubs[..|hubs| - 1]) + (if hub.locationId.None? then [HubWithoutLocation(hub)] else [])
  }

  /**
   * The state of the second pass: the set as it now is, the ids fetched so far,
   * the warnings, and the rejection of `locations.get` that ended the pass, if any.
   */
  datatype Sweep = Sweep(remaining: set<string>, fetched: seq<string>, warnings: seq<Warning>, failure: Option<ApiError>)

  /**
   * One turn of the second pass. Nothing happens once a fetch has been
   * rejected (the `await` throws out of the loop). An id deleted before its
   * turn is skipped, as a `Set` iterator does; otherwise its location is
   * fetched and, when not owned, the id the location REPORTS is deleted.
   */
  function SweepStep(sweep: Sweep, id: string, getLocation: string -> Result<Location, ApiError>): Sweep
  {
    if sweep.failure.Some? || id !in sweep.remaining then sweep
    else match getLocation(id)
      case Err(error) => sweep.(fetched := sweep.fetched + [id], failure := Some(error))
      case Ok(location) =>
        if Owned(location) then sweep.(fetched := sweep.fetched + [id])
        else sweep.(remaining := sweep.remaining - (if location.locationId.Some? then {location.locationId.value} else {}),
                    fetched := sweep.fetched + [id],
                    warnings := sweep.warnings + [FilteringOutLocation(location)])
  }

  function SweepAll(ids: seq<string>, start: Sweep, getLocation: string -> Result<Location, ApiError>): Sweep
    decreases |ids|
  {
    if ids == [] then start
    else SweepStep(SweepAll(ids[..|ids| - 1], start, getLocation), ids[|ids| - 1], getLocation)
  }

  /** The final filter: hubs whose (non-empty) location id is still in the set, in list order. */
  function OwnedHubs(hubs: seq<Device>, keep: set<string>): (own: seq<Device>)
    ensures forall hub :: hub in own <==> hub in hubs && Truthy(hub.locationId) && hub.locationId.value in keep
    decreases |hubs|
  {
    if hubs == [] then []
    else
      var hub := hubs[|hubs| - 1];
      assert hubs == hubs[..|hubs| - 1] + [hub];
      OwnedHubs(hubs[..|hubs| - 1], keep) + (if Truthy(hub.locationId) && hub.locationId.value in keep then [hub] else [])
  }

  /** The sweep that starts from the collected ids. */
  function InitialSweep(ids: seq<string>): Sweep {
    Sweep(set id | id in ids, [], [], None)
  }

  /**
   * `listItems` of `chooseHub`: lists the hubs, collects their location ids,
   * fetches each collected location whose id is still in the set, drops the
   * ones without the owner permission, and returns the hubs left. `listedHubs`
   * is what `devices.list` gave and `getLocation` stands for `locations.get`;
   * a rejection of either rejects the listing. `fetched` records the calls of
   * `locations.get` in order, and `warnings` what was logged before the end.
   */
  method ListOwnedHubs(listedHubs: Result<seq<Device>, ApiError>, getLocation: string -> Result<Location, ApiError>)
    returns (own: Result<seq<Device>, ApiError>, warnings: seq<Warning>, fetched: seq<string>)
    ensures listedHubs.Err? ==> own == Err(listedHubs.error) && warnings == [] && fetched == []
    ensures listedHubs.Ok? ==>
            var hubs := listedHubs.value;
            var sweep := SweepAll(CollectLocationIds(hubs), InitialSweep(CollectLocationIds(hubs)), getLocation);
            && own == (if sweep.failure.Some? then Err(sweep.failure.value) else Ok(OwnedHubs(hubs, sweep.remaining)))
            && fetched == sweep.fetched
            && warnings == MissingLocationWarnings(hubs) + sweep.warnings
  {
    if listedHubs.Err? {
      return Err(listedHubs.error), [], [];
    }
    var hubs := listedHubs.value;
    var order, locationIds, missing := CollectLocations(hubs);
    var remaining, sweepWarnings, failure;
    remaining, fetched, sweepWarnings, failure := RemoveSharedLocations(order, locationIds, getLocation);
    warnings := missing + sweepWarnings;
    if failure.Some? {
      return Err(failure.value), warnings, fetched;
    }
    var kept := KeepOwnedHubs(hubs, remaining);
    own := Ok(kept);
  }

  /**
   * The `forEach` pass: adds each defined location id to the set (`order`
   * keeps the set's insertion order) and warns about each hub without one.
   */
  method CollectLocations(hubs: seq<Device>)
    returns (order: seq<string>, locationIds: set<string>, warnings: seq<Warning>)
    ensures order == CollectLocationIds(hubs)
    ensures locationIds == set id | id in order
    ensures warnings == MissingLocationWarnings(hubs)
  {
    order, locationIds, warnings := [], {}, [];
    var i := 0;
    while i < |hubs|
      invariant 0 <= i <= |hubs|
      invariant order == CollectLocationIds(hubs[..i])
      invariant locationIds == set id | id in order
      invariant warnings == MissingLocationWarnings(hubs[..i])
    {
      var hub := hubs[i];
      assert hubs[..i + 1][..i] == hubs[..i];
      if hub.locationId.Some? {
        if hub.locationId.value !in locationIds {
          order := order + [hub.locationId.value];
        }
        locationIds := locationIds + {hub.locationId.value};
      } else {
        warnings := warnings + [HubWithoutLocation(hub)];
      }
      i := i + 1;
    }
    assert hubs[..i] == hubs;
  }

  /**
   * The loop over the set that removes shared locations: each id still in the
   * set when its turn comes is fetched, and a location without the owner
   * permission is reported and the id it reports is deleted. The first
   * rejected fetch ends the loop.
   */
  method RemoveSharedLocations(order: seq<string>, locationIds: set<string>,
                               getLocation: string -> Result<Location, ApiError>)
    returns (remaining: set<string>, fetched: seq<string>, warnings: seq<Warning>, failure: Option<ApiError>)
    requires locationIds == set id | id in order
    ensures Sweep(remaining, fetched, warnings, failure) == SweepAll(order, InitialSweep(order), getLocation)
  {
    remaining, fetched, warnings, failure := locationIds, [], [], None;
    var j := 0;
    while j < |order| && failure.None?
      invariant 0 <= j <= |order|
      invariant Sweep(remaining, fetched, warnings, failure) == SweepAll(order[..j], InitialSweep(order), getLocation)
    {
      var locationId := order[j];
      assert order[..j + 1][..j] == order[..j];
      if locationId in remaining {
        var answer := getLocation(locationId);
        fetched := fetched + [locationId];
        if answer.Err? {
          failure := Some(answer.error);
        } else if !Owned(answer.value) {
          var location := answer.value;
          warnings := warnings + [FilteringOutLocation(location)];
          if location.locationId.Some? {
            remaining := remaining - {location.locationId.value};
          }
        }
      }
      j := j + 1;
    }
    if j < |order| {
      SweepStaysFailed(order, j, InitialSweep(order), getLocation);
    }
    assert order[..|order|] == order;
  }

  /** Once a fetch was rejected, the rest of the ids change nothing. */
  lemma {:induction false} SweepStaysFailed(ids: seq<string>, k: nat, start: Sweep,
                                            getLocation: string -> Result<Location, ApiError>)
    requires k <= |ids|
    requires SweepAll(ids[..k], start, getLocation).failure.Some?
    ensures SweepAll(ids, start, getLocation) == SweepAll(ids[..k], start, getLocation)
    decreases |ids|
  {
    if k < |ids| {
      var prefix := ids[..|ids| - 1];
      assert prefix[..k] == ids[..k];
      SweepStaysFailed(prefix, k, start, getLocation);
    } else {
      assert ids[..k] == ids;
    }
  }

  /** The final `hubs.filter`: hubs with a (truthy) location id still in the set, in list order. */
  method KeepOwnedHubs(hubs: seq<Device>, locationIds: set<string>) returns (own: seq<Device>)
    ensures own == OwnedHubs(hubs, locationIds)
  {
    own := [];
    var k := 0;
    while k < |hubs|
      invariant 0 <= k <= |hubs|
      invariant own == OwnedHubs(hubs[..k], locationIds)
    {
      var hub := hubs[k];
      assert hubs[..k + 1][..k] == hubs[..k];
      if hub.locationId.Some? && hub.locationId.value != "" && hub.locationId.value in locationIds {
        own := own + [hub];
      }
      k := k + 1;
    }
    assert hubs[..k] == hubs;
  }

  /** The hub list is the fetched list with some hubs dropped and the rest in their order. */
  lemma {:induction false} OwnedHubsIsSubsequence(hubs: seq<Device>, keep: set<string>)
    ensures Subsequence(OwnedHubs(hubs, keep), hubs)
    decreases |hubs|
  {
    if hubs != [] {
      var prefix := hubs[..|hubs| - 1];
      OwnedHubsIsSubsequence(prefix, keep);
      var own := OwnedHubs(hubs, keep);
      if own != OwnedHubs(prefix, keep) {
        assert own[..|own| - 1] == OwnedHubs(prefix, keep);
      }
    }
  }

  /** The second pass fetches a subsequence of the ids it iterates over. */
  lemma {:induction false} SweepFetchesSubsequence(ids: seq<string>, remaining: set<string>,
                                                   getLocation: string -> Result<Location, ApiError>)
    ensures Subsequence(SweepAll(ids, Sweep(remaining, [], [], None), getLocation).fetched, ids)
    decreases |ids|
  {
    if ids != [] {
      var prefix := ids[..|ids| - 1];
      SweepFetchesSubsequence(prefix, remaining, getLocation);
      var before := SweepAll(prefix, Sweep(remaining, [], [], None), getLocation).fetched;
      var after := SweepAll(ids, Sweep(remaining, [], [], None), getLocation).fetched;
      if after != before {
        assert after == before + [ids[|ids| - 1]];
        assert after[..|after| - 1] == before;
      }
    }
  }

  /** No location is fetched twice, and only collected ids are fetched. */
  lemma LocationsFetchedAtMostOnce(hubs: seq<Device>, getLocation: string -> Result<Location, ApiError>)
    ensures var ids := CollectLocationIds(hubs);
            var fetched := SweepAll(ids, InitialSweep(ids), getLocation).fetched;
            Distinct(fetched) && forall id :: id in fetched ==> id in ids
  {
    var ids := CollectLocationIds(hubs);
    SweepFetchesSubsequence(ids, InitialSweep(ids).remaining, getLocation);
    var fetched := SweepAll(ids, InitialSweep(ids), getLocation).fetched;
    SubsequenceOfDistinct(fetched, ids);
    SubsequenceMembers(fetched, ids);
  }

  /**
   * A rejected fetch ends the pass: every fetch before the last one succeeded,
   * and the pass fails exactly with the rejection of its last fetch.
   */
  lemma {:induction false} SweepStopsAtFirstRejection(ids: seq<string>, remaining: set<string>,
                                                      getLocation: string -> Result<Location, ApiError>)
    ensures var sweep := SweepAll(ids, Sweep(remaining, [], [], None), getLocation);
            var n := |sweep.fetched|;
            && (sweep.failure.None? ==> forall i :: 0 <= i < n ==> getLocation(sweep.fetched[i]).Ok?)
            && (sweep.failure.Some? ==> n > 0 && getLocation(sweep.fetched[n - 1]) == Err(sweep.failure.value))
            && (sweep.failure.Some? ==> forall i :: 0 <= i < n - 1 ==> getLocation(sweep.fetched[i]).Ok?)
    decreases |ids|
  {
    if ids != [] {
      SweepStopsAtFirstRejection(ids[..|ids| - 1], remaining, getLocation);
    }
  }

  /** The ids among `ids` whose location lacks the owner permission. */
  ghost function NotOwnedIds(ids: seq<string>, getLocation: string -> Result<Location, ApiError>): set<string> {
    set id | id in ids && getLocation(id).Ok? && !Owned(getLocation(id).value)
  }

  /**
   * When every location is fetched and reports its own id, the second pass
   * fetches every id in turn and deletes exactly the ids of locations not owned.
   */
  lemma {:induction false} SweepWithFaithfulLocations(ids: seq<string>, start: Sweep,
                                                      getLocation: string -> Result<Location, ApiError>)
    requires Distinct(ids)
    requires start.failure.None?
    requires forall id :: id in ids ==> id in start.remaining
    requires forall id :: id in ids ==> getLocation(id).Ok? && getLocation(id).value.locationId == Some(id)
    ensures SweepAll(ids, start, getLocation).failure.None?
    ensures SweepAll(ids, start, getLocation).remaining == start.remaining - NotOwnedIds(ids, getLocation)
    ensures SweepAll(ids, start, getLocation).fetched == start.fetched + ids
    decreases |ids|
  {
    if ids != [] {
      var prefix, last := ids[..|ids| - 1], ids[|ids| - 1];
      assert ids == prefix + [last];
      assert Distinct(prefix) by {
        forall i, j | 0 <= i < j < |prefix| ensures prefix[i] != prefix[j] {
          assert prefix[i] == ids[i] && prefix[j] == ids[j];
        }
      }
      SweepWithFaithfulLocations(prefix, start, getLocation);
      var before := SweepAll(prefix, start, getLocation);
      assert last !in prefix by {
        forall i | 0 <= i < |prefix| ensures prefix[i] != last {
          assert prefix[i] == ids[i];
        }
      }
      assert last in before.remaining;
      if Owned(getLocation(last).value) {
        assert NotOwnedIds(ids, getLocation) == NotOwnedIds(prefix, getLocation);
      } else {
        assert NotOwnedIds(ids, getLocation) == NotOwnedIds(prefix, getLocation) + {last};
      }
    }
  }

  /**
   * With a location service that answers each id with that location, the hub
   * list keeps exactly the hubs whose (non-empty) location grants the owner
   * permission, and each distinct location id is fetched exactly once, in
   * first-seen order.
   */
  lemma HubListWithFaithfulLocations(hubs: seq<Device>, getLocation: string -> Result<Location, ApiError>)
    requires forall hub :: hub in hubs && hub.locationId.Some?
               ==> getLocation(hub.locationId.value).Ok? && getLocation(hub.locationId.value).value.locationId == hub.locationId
    ensures var ids := CollectLocationIds(hubs);
            var sweep := SweepAll(ids, InitialSweep(ids), getLocation);
            && sweep.failure.None?
            && sweep.fetched == ids
            && forall hub :: hub in OwnedHubs(hubs, sweep.remaining)
                 <==> hub in hubs && Truthy(hub.locationId) && Owned(getLocation(hub.locationId.value).value)
  {
    var ids := CollectLocationIds(hubs);
    forall id | id in ids ensures getLocation(id).Ok? && getLocation(id).value.locationId == Some(id) {
      var hub :| hub in hubs && hub.locationId == Some(id);
    }
    SweepWithFaithfulLocations(ids, InitialSweep(ids), getLocation);
  }

  /**
   * Deletion is keyed on the id the location service reports, not on the id
   * asked for: if the answer for "x" is a shared location reporting id "y",
   * then "y" is deleted (and never fetched) while the hub in "x" stays listed.
   */
  lemma DeletionFollowsReportedLocationId()
    ensures var hubX := Device("hub-1", "Hub", "Hub", Some("x"));
            var hubY := Device("hub-2", "Other", "Other", Some("y"));
            var getLocation := (id: string) =>
              if id == "x" then Ok(Location(Some("y"), Some([]))) else Ok(Location(Some(id), Some([OwnerPermission])));
            var ids := CollectLocationIds([hubX, hubY]);
            var sweep := SweepAll(ids, InitialSweep(ids), getLocation);
            && sweep.fetched == ["x"]
            && OwnedHubs([hubX, hubY], sweep.remaining) == [hubX]
  {
    var hubX := Device("hub-1", "Hub", "Hub", Some("x"));
    var hubY := Device("hub-2", "Other", "Other", Some("y"));
    var getLocation := (id: string) =>
      if id == "x" then Ok(Location(Some("y"), Some([]))) else Ok(Location(Some(id), Some([OwnerPermission])));
    assert [hubX, hubY][..1] == [hubX];
    assert [hubX][..0] == [];
    assert CollectLocationIds([hubX]) == ["x"];
    var ids := CollectLocationIds([hubX, hubY]);
    assert ids == ["x", "y"];
    assert ids[..1] == ["x"];
    assert ["x"][..0] == [];
    var sweep := SweepAll(ids, InitialSweep(ids), getLocation);
    assert SweepAll(["x"], InitialSweep(ids), getLocation).remaining == {"x"};
    assert sweep.remaining == {"x"};
    assert OwnedHubs([hubX], {"x"}) == [hubX];
  }

  // ---------------------------------------------------------------------------
  // Drivers assigned to a channel, with their names
  // ---------------------------------------------------------------------------

  /** A rejected API call; `status` is `error.response?.status`. */
  datatype ApiError = ApiError(status: Option<int>, message: string)

  predicate IsNotFound(error: ApiError) {
    error.status == Some(404)
  }

  datatype DriverChannelDetails = DriverChannelDetails(channelId: string, driverId: string, version: string)
  datatype DriverChannelDetailsWithName = DriverChannelDetailsWithName(details: DriverChannelDetails, name: string)

  /** A metadata lookup that failed with anything other than 404. */
  predicate FailsHard(lookup: Result<string, ApiError>) {
    lookup.Err? && !IsNotFound(lookup.error)
  }

  /**
   * `listAssignedDriversWithNames` after the assigned list has arrived: each
   * assigned driver gets the name from its metadata lookup (`getMetaInfo` stands
   * for `getDriverChannelMetaInfo`, answering with the name or the error);
   * drivers whose lookup is a 404 (deleted drivers) are dropped, and any other
   * failure fails the whole call.
   */
  function ListAssignedDriversWithNames(channelId: string, drivers: seq<DriverChannelDetails>,
                                        getMetaInfo: (string, string) -> Result<string, ApiError>)
    : (r: Result<seq<DriverChannelDetailsWithName>, ApiError>)
    ensures r.Ok? <==> forall i :: 0 <= i < |drivers| ==> !FailsHard(getMetaInfo(channelId, drivers[i].driverId))
    ensures r.Err? ==> !IsNotFound(r.error)
                       && exists i :: 0 <= i < |drivers| && getMetaInfo(channelId, drivers[i].driverId) == Err(r.error)
    ensures r.Ok? ==> forall named :: named in r.value
                        ==> named.details in drivers && getMetaInfo(channelId, named.details.driverId) == Ok(named.name)
    ensures r.Ok? ==> forall d :: d in drivers && getMetaInfo(channelId, d.driverId).Ok?
                        ==> DriverChannelDetailsWithName(d, getMetaInfo(channelId, d.driverId).value) in r.value
    decreases |drivers|
  {
    if drivers == [] then Ok([])
    else
      var prefix, last := drivers[..|drivers| - 1], drivers[|drivers| - 1];
      assert drivers == prefix + [last];
      match ListAssignedDriversWithNames(channelId, prefix, getMetaInfo)
      case Err(e) => Err(e)
      case Ok(named) =>
        match getMetaInfo(channelId, last.driverId)
        case Ok(name) => Ok(named + [DriverChannelDetailsWithName(last, name)])
        case Err(e) => if IsNotFound(e) then Ok(named) else Err(e)
  }

  function DetailsOf(named: seq<DriverChannelDetailsWithName>): (details: seq<DriverChannelDetails>)
    ensures |details| == |named|
    ensures forall i :: 0 <= i < |named| ==> details[i] == named[i].details
  {
    seq(|named|, i requires 0 <= i < |named| => named[i].details)
  }

  /** The number of assigned drivers whose lookup is a 404. */
  function DeletedCount(channelId: string, drivers: seq<DriverChannelDetails>,
                        getMetaInfo: (string, string) -> Result<string, ApiError>): nat
    decreases |drivers|
  {
    if drivers == [] then 0
    else
      var lookup := getMetaInfo(channelId, drivers[|drivers| - 1].driverId);
      DeletedCount(channelId, drivers[..|drivers| - 1], getMetaInfo) + (if lookup.Err? && IsNotFound(lookup.error) then 1 else 0)
  }

  /**
   * On success the named list follows the assigned list's order and is shorter
   * by exactly the number of deleted drivers.
   */
  lemma {:induction false} AssignedDriversKeepOrder(channelId: string, drivers: seq<DriverChannelDetails>,
                                                    getMetaInfo: (string, string) -> Result<string, ApiError>)
    requires ListAssignedDriversWithNames(channelId, drivers, getMetaInfo).Ok?
    ensures var named := ListAssignedDriversWithNames(channelId, drivers, getMetaInfo).value;
            && Subsequence(DetailsOf(named), drivers)
            && |named| + DeletedCount(channelId, drivers, getMetaInfo) == |drivers|
    decreases |drivers|
  {
    if drivers != [] {
      var prefix := drivers[..|drivers| - 1];
      AssignedDriversKeepOrder(channelId, prefix, getMetaInfo);
      var before := DetailsOf(ListAssignedDriversWithNames(channelId, prefix, getMetaInfo).value);
      var after := DetailsOf(ListAssignedDriversWithNames(channelId, drivers, getMetaInfo).value);
      if |after| != |before| {
        assert after[..|after| - 1] == before;
      } else {
        assert after == before;
      }
    }
  }
}
