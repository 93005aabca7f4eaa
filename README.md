# Edge driver helpers and live-log hub trust, modelled in Dafny

This project models two pieces of decision logic of the SmartThings edge CLI
plugin.

**Driver and hub list helpers** (`src/lib/commands/drivers-util.ts`, module
`DriversUtil` in `drivers_util.dfy`):

- How a driver's permissions cell and details text are composed.
- What `chooseDriver` and `chooseHub` preselect and which configured default
  they offer.
- Which hubs `chooseHub` offers. Hubs are collected by location. Each location
  is fetched at most once (exactly once when every fetch succeeds and the
  location reports its own id). A location without the `d:locations` owner permission is
  removed, keyed on the location id the service *reports*. Then the hub list
  is filtered. A rejected `devices.list` or `locations.get` rejects the
  listing, after the warnings already logged.
- Which channel drivers `listAssignedDriversWithNames` lists. Deleted drivers
  (metadata lookup 404) are dropped, and any other failure propagates.

**The `edge:drivers:logcat` command** (`src/commands/edge/drivers/logcat.ts`,
module `LogCat` in `logcat.dfy`):

- The hub authority `ipv4:port`, with port 9495 by default.
- Trust on first use of the hub certificate. The known-hubs file is a map from
  authority to `{hostname, fingerprint}`. A pinned fingerprint passes silently.
  Anything else warns and asks the operator. A yes pins the fingerprint and
  writes the map back.
- Validation and conversion of the driver prompt's answer.
- The choice between the aggregate log stream and one driver's stream.
- The stream error handler. It tears the source down first. Then it reports
  "Unauthorized at <authority>" for 401/403, or the connection-error
  classifier's cause, or the error's own message.

Supporting modules: `Wrappers` (Option, Result), `Strings` (JavaScript `join`,
`split`, decimal rendering of a port and its parser) and `Sequences`
(distinctness, order-preserving subsequences).

Collaborators are parameters:

- the REST client calls (`devices.list`, `locations.get`, `getDriverChannelMetaInfo`, `getLogSource`);
- the CLI library's `stringTranslateToId` and `convertToId`;
- `parseIpAndPort` and `handleConnectionErrors`;
- the operator's answers, and the outcome of reading or writing the known-hubs file.

Warnings, prompts and spinner changes are recorded in order, as `Warning`
values or in the command's `output` trail.

Two behaviours of the trust check worth stating plainly:

- A failed write of the known-hubs file fails the certificate check:
  `checkServerIdentity` awaits `fs.writeFile` (logcat.ts:121) and lets its
  error propagate.
- A declined confirmation fails with "Hub verification failed."
  (logcat.ts:117), which does not name the authority.

## Model

| member | source | states |
|---|---|---|
| `DriversUtil.PermissionsValue` | src/lib/commands/drivers-util.ts:10 | "none" when permissions are absent or empty (and for a single unnamed permission, whose join is empty); otherwise the names joined by newlines |
| `DriversUtil.PermissionsValueListsNames` | src/lib/commands/drivers-util.ts:10 | splitting the cell at newlines gives back every permission name in order, when no name contains a newline |
| `DriversUtil.FingerprintsSection` | src/lib/commands/drivers-util.ts:20-24 | exactly "No fingerprints specified." when fingerprints are absent or empty, else "Fingerprints\n" followed by the fingerprints table |
| `DriversUtil.BuildTableOutput` | src/lib/commands/drivers-util.ts:11-29 | the output is the basic, profiles, fingerprints and summary sections joined by blank lines, in that order; it starts with "Basic Information\n" and ends with the summary text |
| `DriversUtil.ChooseDriverRequest` | src/lib/commands/drivers-util.ts:37-50 | preselects the command-line id unchanged without `allowIndex`, its translation with it; no default key |
| `DriversUtil.ChooseHubRequest` | src/lib/commands/drivers-util.ts:89-97 | nothing preselected (and nothing translated) for an absent or empty hub id; the id unchanged without `allowIndex`; the default key is "defaultHub" exactly when `useConfigDefault` is set |
| `DriversUtil.CollectLocationIds` | src/lib/commands/drivers-util.ts:65-72 | the location id set holds each defined hub location id exactly once, and nothing else |
| `DriversUtil.MissingLocationWarnings` | src/lib/commands/drivers-util.ts:66-72 | every hub without a location id is warned about, and only such hubs |
| `DriversUtil.OwnedHubs` | src/lib/commands/drivers-util.ts:84 | a hub is kept exactly when it has a non-empty location id still in the set |
| `DriversUtil.ListOwnedHubs` | src/lib/commands/drivers-util.ts:63-87 | a rejected `devices.list` rejects with nothing fetched or warned; otherwise the warnings and location fetches are those of `CollectLocationIds` and `SweepAll`, and the result is the sweep's rejection if a fetch was rejected, else `OwnedHubs` of the hubs and the remaining set |
| `DriversUtil.CollectLocations` | src/lib/commands/drivers-util.ts:65-72 | the `forEach` pass builds the set in insertion order and warns about each hub without a location |
| `DriversUtil.RemoveSharedLocations` | src/lib/commands/drivers-util.ts:74-82 | the loop over the set fetches each id still present at its turn, deletes the reported id of every location without the owner permission, and stops at the first rejected fetch |
| `DriversUtil.SweepStaysFailed` | src/lib/commands/drivers-util.ts:75-76 | after a rejected fetch the remaining ids change nothing, so leaving the loop early gives the whole pass |
| `DriversUtil.SweepStopsAtFirstRejection` | src/lib/commands/drivers-util.ts:75-76 | every fetch before the last succeeded, and the pass is rejected exactly with the error of its last fetch |
| `DriversUtil.KeepOwnedHubs` | src/lib/commands/drivers-util.ts:84-86 | the final filter returns exactly `OwnedHubs` of the hubs and the set, in order |
| `DriversUtil.OwnedHubsIsSubsequence` | src/lib/commands/drivers-util.ts:84 | the hub list is an order-preserving subsequence of the fetched hubs |
| `DriversUtil.SweepFetchesSubsequence` | src/lib/commands/drivers-util.ts:75-82 | the locations fetched are a subsequence of the collected ids |
| `DriversUtil.LocationsFetchedAtMostOnce` | src/lib/commands/drivers-util.ts:65-82 | no location is fetched twice, and only collected ids are fetched |
| `DriversUtil.SweepWithFaithfulLocations` | src/lib/commands/drivers-util.ts:75-82 | when each location is fetched and reports its own id, nothing is rejected, every id is fetched in turn and exactly the ids of locations without the owner permission are deleted |
| `DriversUtil.HubListWithFaithfulLocations` | src/lib/commands/drivers-util.ts:63-87 | with such a location service, nothing is rejected, each distinct location id is fetched exactly once in first-seen order, and a hub is listed iff its non-empty location grants `d:locations` (so allowed empty, null or missing excludes it) |
| `DriversUtil.DeletionFollowsReportedLocationId` | src/lib/commands/drivers-util.ts:76-80 | deletion uses the id the location reports: a shared location answering for "x" with id "y" deletes "y" (never fetched) and leaves the hub in "x" listed |
| `DriversUtil.ListAssignedDriversWithNames` | src/lib/commands/drivers-util.ts:104-125 | succeeds iff no lookup fails with a status other than 404; a failure is such a lookup's error; every listed driver is assigned and carries its looked-up name; every driver whose lookup succeeded is listed |
| `DriversUtil.AssignedDriversKeepOrder` | src/lib/commands/drivers-util.ts:106-124 | the listed drivers keep the assigned order, and exactly the 404 entries are missing |
| `Strings.JoinIsEmpty` | src/lib/commands/drivers-util.ts:10 | a newline join is empty exactly for no names or one empty name, the cases where the `|| 'none'` fallback applies |
| `Strings.SplitJoinRoundTrip` | src/lib/commands/drivers-util.ts:10 | splitting a join of separator-free names at the separator gives back the names |
| `Strings.NatToString` | src/commands/edge/drivers/logcat.ts:147 | the rendered port is a non-empty digit string without a leading zero |
| `Strings.ParseNatToString` | src/commands/edge/drivers/logcat.ts:147 | reading back the rendered port gives the port |
| `LogCat.AuthorityParts` | src/commands/edge/drivers/logcat.ts:147 | splitting `ipv4:port` at its last colon gives back the host and the port |
| `LogCat.Authority` | src/commands/edge/drivers/logcat.ts:144-147 | the authority reads back as the host unchanged and the given port, or 9495 when none was given |
| `LogCat.AuthorityIsInjective` | src/commands/edge/drivers/logcat.ts:147 | different host or port never give the same authority, so never share a known-hubs entry |
| `LogCat.ValidateDriverInput` | src/commands/edge/drivers/logcat.ts:52-57 | the answer is accepted iff it is "all" or converts to a non-empty id; otherwise the "Invalid id or index" message is shown |
| `LogCat.PromptForDrivers` | src/commands/edge/drivers/logcat.ts:60-65 | "all" is returned unchanged, otherwise the converted id; an unconvertible answer throws a plain error "unable to convert … to id" |
| `LogCat.DriverAnswerSelectsStream` | src/commands/edge/drivers/logcat.ts:51-65 | an empty answer takes the default "all", is accepted and selects the aggregate stream; another accepted answer other than "all" gives its converted id |
| `LogCat.AcceptedDriverInputConverts` | src/commands/edge/drivers/logcat.ts:52-65 | an accepted answer always converts, to "all" or to the non-empty id it names |
| `LogCat.LoadKnownHubs` | src/commands/edge/drivers/logcat.ts:99-104 | a missing file (ENOENT) is an empty map; a stored map is used as is; any other read or parse failure propagates |
| `LogCat.Decide` | src/commands/edge/drivers/logcat.ts:106-121 | silent iff the authority is pinned to the presented fingerprint; rejected iff not pinned and the operator declines; on acceptance the authority maps to `{hostname: authority, fingerprint}` and every other entry is unchanged |
| `LogCat.AttemptsKeepEntriesNamed` | src/commands/edge/drivers/logcat.ts:120 | over any series of connections every entry stays stored under the authority it names, and no hub is forgotten |
| `LogCat.OnlyConfirmedConnectionsRepin` | src/commands/edge/drivers/logcat.ts:106-121 | an entry is added or changed only by a connection to that authority that the operator confirmed |
| `LogCat.PinnedFingerprintIsTrustedNext` | src/commands/edge/drivers/logcat.ts:106-121 | after a fingerprint is pinned, the next connection presenting it passes without a prompt |
| `LogCat.FirstContactScenario` | src/commands/edge/drivers/logcat.ts:106-121 | first contact with 10.0.0.5 on the default port, confirmed, stores `{"10.0.0.5:9495": {hostname: "10.0.0.5:9495", fingerprint}}` |
| `LogCat.LogSourceDriver` | src/commands/edge/drivers/logcat.ts:154-159 | no driver id (the aggregate stream) iff `--all` is set or "all" was chosen; otherwise the chosen id |
| `LogCat.StreamErrorMessage` | src/commands/edge/drivers/logcat.ts:165-178 | 401 or 403 gives "Unauthorized at <authority>"; otherwise the classifier's cause, else the error's message, else the error itself |
| `LogCat.KnownHubsFile.constructor` | src/commands/edge/drivers/logcat.ts:98 | the known-hubs file lives at `<cacheDir>/known_hubs.json` |
| `LogCat.LogCatCommand.Init` | src/commands/edge/drivers/logcat.ts:140-150 | the address comes from the flag or a prompt; a parse failure propagates; otherwise the authority is `Authority(ipv4, port)` and the client is bound to it |
| `LogCat.LogCatCommand.CheckServerIdentity` | src/commands/edge/drivers/logcat.ts:97-125 | it works on `<cacheDir>/known_hubs.json` of the command's cache directory; the file and the operator trail follow `LoadKnownHubs` and `Decide`: silent and unchanged when pinned; warning and prompt otherwise; "Hub verification failed." and nothing written on a no; the updated map written and "Permanently added" on a yes |
| `LogCat.LogCatCommand.Run` | src/commands/edge/drivers/logcat.ts:152-163 | `getLogSource` is called with `LogSourceDriver(all, chosen)`; its failure propagates, else the source listens on the returned URL |
| `LogCat.LogCatCommand.OnError` | src/commands/edge/drivers/logcat.ts:165-178 | the spinner stops and the source is torn down before the classified message is reported |

## Left out

- `src/commands/edge/drivers/package.ts`, `src/commands/edge/channels.ts`, `src/commands/edge/drivers.ts` and the `channels/assign`, `channels/enroll` and `channels/update` commands are left out. They are thin glue over listing, input and REST helpers.
- `listDrivers` (drivers-util.ts:31-34) is left out. It only dispatches between two API calls.
- `chooseDriverFromChannel` (drivers-util.ts:127-137) is left out. It hands a fixed prompt and `listAssignedDriversWithNames` to `selectFromList`.
- The CLI library's `selectFromList`, `selectGeneric`, `stringTranslateToId`, `convertToId` and `chooseOptionsWithDefaults` are not modelled; they are function parameters or given values.
- Hub driver selection in logcat (`chooseHubDrivers`) is not modelled. Its result is the `chosenDriver` parameter of `Run`.
- The prompt's re-asking loop on an invalid answer belongs to the prompt library and is not modelled. Only the validation verdict is.
- `parseIpAndPort`, `handleConnectionErrors` and `LiveLogClient` are parameters, and their internals are not modelled.
- The server-sent-events transport and its `onopen`/`onmessage` handlers are left out. So are `initSource` and `teardown` themselves: teardown is a recorded step that moves the source to `TornDown`. The rule that no message is delivered after teardown is therefore not stated.
- A stream error that is `null` or `undefined` is not modelled.
- `DriversUtil.ChooseDriverRequest`: a rejected `stringTranslateToId` (drivers-util.ts:47), for example on a bad index, rejects `chooseDriver`; the model's translation always gives a value, so that rejection is not modelled.
- `DriversUtil.ChooseHubRequest`: a rejected `stringTranslateToId` (drivers-util.ts:91), including a rejection of the `listItems` call it makes under `allowIndex`, rejects `chooseHub`; the model's translation always gives a value, so that rejection is not modelled.
- `LogCat.Authority`: `parseIpAndPort` is not part of this model. The model assumes it gives the port as a number, which the template literal renders in canonical decimal. A port kept as text would be printed verbatim (for example "09495"), and the read-back lemmas would not apply to it.
- File I/O is reduced to what a read gives (`TrustFile`) and whether a write fails. JSON encoding is left out, and so is a parsed value that is not an object.
- The model assumes `checkServerIdentity` sees the command's authority and cache directory. How the callback is bound inside the live-log client is not part of this model.
- `DriversUtil.ListAssignedDriversWithNames`: the lookups run concurrently under `Promise.all`. The model runs them in list order. When several lookups fail, it reports the first failure in list order, not the first in time. A failure of `listAssignedDrivers` itself propagates unchanged; the model starts from the list that call returned.
- Table rendering (`buildTableFromItem`, `buildTableFromList`) is uninterpreted. Only the composition of the sections around it is modelled.
- `LogCat.LogCatCommand.CheckServerIdentity`: a failed write is modelled as leaving the file as it was. A partial write is not modelled.
