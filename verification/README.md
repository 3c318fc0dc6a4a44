# Cellular manager HALs: the protocols behind the callbacks

This project models the asynchronous core of the RDK-B cellular manager and proves what it keeps over whole runs.

* **QMI step machines.** Every long modem operation is a task with a step counter, a fall-through switch and completion
  callbacks. Each machine appears twice: once as a protocol (`ProfileProtocol`, `NetworkProtocol`, the first half of
  `DeviceOpen`), a function from a state at rest and an answer to the next state at rest, with a log of requests,
  notifications and releases; and once in the code's own form (`ProfileMachine`, `NetworkMachine`, `DeviceOpen.OpenTask`),
  objects whose methods update counters, flags and arrays block by block. Each method is proved to do what the protocol
  does, and the properties of whole runs (`ProfileRuns`, `ProfileOrder`, `ProfileNotices`, `ProfileModify`,
  `ProfileListing`, `NetworkRuns`, `NetworkClients`, `NetworkSystem`, `DeviceRuns`) are proved of the protocol. A task is a
  token: held by one request, or by the machine, or released. `FormatText` says what becomes of a text used as a format.
* **Conversations.** What the operations are for is stated a second time, without steps, stages or holders: for every
  sequence of answers the requests that go out, by name and in order, what the caller is told and what is then known or
  held (`ProfileConversation`, `NetworkConversation`, `DeviceConversation`). Every run of the protocols is proved to be
  its conversation. `ProfileSuccess` gives the exact requests when nothing is refused, and `ProfileMatching` the
  comparison of profiles field by field.
* **Other QMI parts.** The choice of a SIM slot (`SlotSelection`), the filter over serving-system indications
  (`ServingSystem`) and the BCD decoders (`Bcd`).
* **ModemManager HAL.** The table of bearers compacted in place (`BearerTable`), the way from a D-Bus path to a profile
  number and back (`BearerPath`), and the command mailbox (`CommandMailbox`), which the RNDIS HAL has too.
* **Hot plug.** The function table swapped under its callers (`HotPlug`), as a transition system over the steps of the
  threads, and the cached search for a WAN interface (`InterfaceIndex`).

The environment is a parameter: the answers of the modem, the order of completions and the interleaving of threads are
arbitrary. Memory from `malloc`, the bytes behind an unterminated buffer and the zeroed operating mode are arbitrary
values too.

What the code does differently from what its structure suggests is modelled as it is:

* The attach step of a modify operation has no case label (cellular_hal_qmi_apis.c:5287 labels the create step only), so
  a modify that sets the default ends there without a notification. `ProfileModify.SwitchMeetsIntent` says exactly when
  this differs from the labelled switch.
* The `else` branches of the stop machine (cellular_hal_qmi_apis.c:6731, 6756, 6806) act on IPv6 when an IPv4 stop finds
  nothing of its own. `NetworkRuns.StopIsolation` gives the exact condition; `NetworkSystem.StopsConverge` shows that the
  final state after both stops is the same all the same.
* The guard that allocates the IPv6 client tests the IPv4 one (cellular_hal_qmi_apis.c:6452-6453).
  `NetworkRuns.StartAddressed` gives the exact condition under which a start talks through its own client.
  The same guard lets an IPv6 start allocate a second client over the one it has: `NetworkClients` keeps the accounts.
* IP READY does not need a stored handle: a network answer may carry none (`NetworkRuns.ReadyWithoutHandle`).
  `NetworkRuns.ReadySentExactly` states what it does need.
* The list walk hands the modem's texts to snprintf as the format (cellular_hal_qmi_apis.c:5624, 5662, 5665, 5747), where
  the default profile's callback uses "%s". A doubled percent sign is stored once, and any other asks for an argument that
  is not there; from there on the model takes arbitrary text. `ProfileListing.EntryTextsExactly` and
  `ProfileListing.EntryMatchesExactly` say when an entry is still the modem's and is still recognised.
* The RNDIS HAL stores arguments before it takes the mutex. `CommandMailbox.EarlyArgumentsExactly` says for which posts
  they still reach their own commands.
* The interface cache marks absence by 0xFF, which is also an index. `InterfaceIndex.CacheFitsExactly` says when the cache
  stays within its array.
* A bearer refused because the maximum is reached is reported READY (cellular_hal_modem_apis.c:338-342).
* A slot status pass without a callback may replace a lost slot at once; with one it takes two passes.

Check it with `dafny verify dfyconfig.toml`.

## Model

| member | source | states |
|---|---|---|
| `Profiles.FirstCollision` | source/CellularManager/cellular_hal_qmi_apis.c:5159-5187 | the first cached entry that matches in APN (any case), user, password, PDP type and authentication, an entry with the modified profile's own number not counting; none only if there is none |
| `ProfileMachine.WdsContext.constructor` | source/CellularManager/cellular_hal_qmi_apis.c:492-512 | the profile part of a fresh context: no client, no default, no list |
| `ProfileMachine.ProfileTask.constructor` | source/CellularManager/cellular_hal_qmi_apis.c:5375-5440 | a new task stands at the first step of its operation, held once |
| `ProfileMachine.ProfileTask.AllocateBlock` | source/CellularManager/cellular_hal_qmi_apis.c:5017-5040 | entered by label or by falling in, the block and all it falls into do what the operation's own line does from there |
| `ProfileMachine.ProfileTask.ReadDefaultBlock` | source/CellularManager/cellular_hal_qmi_apis.c:5041-5074 | the same from the default-settings block; operations it is not for pass through it |
| `ProfileMachine.ProfileTask.DeleteBlock` | source/CellularManager/cellular_hal_qmi_apis.c:5075-5086 | the same from the delete block |
| `ProfileMachine.ProfileTask.ListBlock` | source/CellularManager/cellular_hal_qmi_apis.c:5087-5141 | the same from the list block; a list or a resync always asks, a create only without a list |
| `ProfileMachine.ProfileTask.VerifyBlock` | source/CellularManager/cellular_hal_qmi_apis.c:5142-5194 | the same from the check against the cached list |
| `ProfileMachine.ProfileTask.CheckCachedProfiles` | source/CellularManager/cellular_hal_qmi_apis.c:5148-5187 | the loop takes over exactly the first match, in the task and in the cached list, and otherwise changes nothing but the flag |
| `ProfileMachine.ProfileTask.CreateBlock` | source/CellularManager/cellular_hal_qmi_apis.c:5195-5213 | the same from the create block |
| `ProfileMachine.ProfileTask.ModifyBlock` | source/CellularManager/cellular_hal_qmi_apis.c:5214-5249 | the same from the modify block |
| `ProfileMachine.ProfileTask.SetDefaultBlock` | source/CellularManager/cellular_hal_qmi_apis.c:5250-5286 | the same from the set-default block |
| `ProfileMachine.ProfileTask.NotifyBlock` | source/CellularManager/cellular_hal_qmi_apis.c:5313-5351 | the same from the notification on |
| `ProfileMachine.ProfileTask.Step` | source/CellularManager/cellular_hal_qmi_apis.c:4998-5352 | one invocation of the switch, from any step of any operation, is the straight line of that operation from that step's stage, except that a modify resumed at its attach step just ends |
| `ProfileMachine.ProfileTask.AdoptList` | source/CellularManager/cellular_hal_qmi_apis.c:5803-5818 | the old list gives way to one cell per entry of the reply |
| `ProfileMachine.ProfileTask.WriteHead` | source/CellularManager/cellular_hal_qmi_apis.c:5733-5750 | the entry under the cursor gets its number, type and default flag and the name as its own format prints it, and no other entry changes |
| `ProfileMachine.ProfileTask.NextProfileSettings` | source/CellularManager/cellular_hal_qmi_apis.c:5714-5762 | either the next entry's settings are asked for, with the cursor inside the list, or the flag goes up and the operation goes on |
| `ProfileMachine.ProfileTask.OnEntrySettings` | source/CellularManager/cellular_hal_qmi_apis.c:5578-5712 | the settings land in the entry under the cursor, its texts as their own formats print them, and the cursor moves by one; a failure empties the list and goes on |
| `ProfileMachine.ProfileTask.OnProfileList` | source/CellularManager/cellular_hal_qmi_apis.c:5764-5833 | the list reply, complete, empty or failed, leads where the protocol leads |
| `ProfileMachine.ProfileTask.OnCreated` | source/CellularManager/cellular_hal_qmi_apis.c:4277-4349 | a create answer stores the new number or tells NOT_READY and ends |
| `ProfileMachine.ProfileTask.OnDeleted` | source/CellularManager/cellular_hal_qmi_apis.c:4409-4449 | a delete answer resyncs or ends |
| `ProfileMachine.ProfileTask.OnDefaultSet` | source/CellularManager/cellular_hal_qmi_apis.c:4641-4686 | a set-default answer copies the profile to the cached default or ends |
| `ProfileMachine.ProfileTask.OnDefaultNumber` | source/CellularManager/cellular_hal_qmi_apis.c:4846-4914 | the default number is followed by its settings request; a failure forgets the default and ends |
| `ProfileMachine.ProfileTask.Complete` | source/CellularManager/cellular_hal_qmi_apis.c:4277-5576 | every completion does what the protocol does with it, and the step counter rises unless the list walk or the default's second request goes on |
| `ProfileMachine.ProfileTask.Run` | source/CellularManager/cellular_hal_qmi_apis.c:4998-5576 | a whole run of the machine, over its arrays and counters, is the run of the operation's straight line under the same answers |
| `ProfileRuns.RunOwned` | source/CellularManager/cellular_hal_qmi_apis.c:4998-5352 | at every point of every run exactly one request in flight holds the task, at a stage of the task's own line, or it has been released exactly once; at most one notification |
| `ProfileOrder.DeliverShrinks` | source/CellularManager/cellular_hal_qmi_apis.c:4998-5762 | each completion lowers (stages left, requests left at the stage, entries left) |
| `ProfileOrder.EveryRunEnds` | source/CellularManager/cellular_hal_qmi_apis.c:4998-5762 | whatever is answered, a run ends after finitely many answers |
| `ProfileOrder.RunInOrder` | source/CellularManager/cellular_hal_qmi_apis.c:4998-5352 | a run asks only for its own operation, each thing at most once and in the order of its line |
| `ProfileConversation.RunConverses` | source/CellularManager/cellular_hal_qmi_apis.c:4998-5833 | every run of every operation, under all answers, is the conversation of its operation: the same requests by name and in order, over when it is over, then with the same words to the caller and the same cached client, default, list and flag |
| `ProfileSuccess.SuccessfulList` | source/CellularManager/cellular_hal_qmi_apis.c:5017-5134 | a list run with no refusal asks for a client if there is none, for the default if it is not cached, always for the list, then for the settings of every entry; the list is then collected |
| `ProfileSuccess.SuccessfulDelete` | source/CellularManager/cellular_hal_qmi_apis.c:5075-5134 | a delete run with no refusal asks for a client if there is none, for the delete by number, for the list again and every entry; then it tells DELETED with the name and type asked for |
| `ProfileSuccess.SuccessfulModify` | source/CellularManager/cellular_hal_qmi_apis.c:5142-5341 | a modify run with no refusal: the exact requests, the cached default afterwards, and the exact words to the caller, lost after set-default |
| `ProfileSuccess.SuccessfulCreate` | source/CellularManager/cellular_hal_qmi_apis.c:5041-5341 | a create run with no refusal: the exact requests from what the cache lacks and whether the list has a match, set-default under the number of the match or the new one, which is then the cached default, and READY for that profile |
| `ProfileNotices.SuccessTold` | source/CellularManager/cellular_hal_qmi_apis.c:5314-5341 | a create or delete whose requests all succeed tells its caller exactly once |
| `ProfileNotices.DeletedIffAcknowledged` | source/CellularManager/cellular_hal_qmi_apis.c:4409-4449 | DELETED is told if and only if the modem acknowledged the delete, and then the list was collected again; otherwise nothing is told |
| `ProfileNotices.NotReadyMeansCreateFailed` | source/CellularManager/cellular_hal_qmi_apis.c:4277-4349 | NOT_READY is told only right after a failed create request |
| `ProfileModify.ModifyFromCheck` | source/CellularManager/cellular_hal_qmi_apis.c:5142-5249 | a modify is sent to the modem, as it was asked for, exactly when no cached entry but its own matches; otherwise the run ends, telling its caller READY |
| `ProfileModify.ModifyToldExactly` | source/CellularManager/cellular_hal_qmi_apis.c:5287-5341 | a fully successful modify tells its caller if and only if it did not have to set the default; the lost notification is exact |
| `ProfileModify.SwitchMeetsIntent` | source/CellularManager/cellular_hal_qmi_apis.c:5287-5352 | for all answer patterns the switch as written runs as it would with the missing attach label, if and only if the request is not a told modify to default that matches no other cached profile |
| `ProfileModify.DeviationWitness` | source/CellularManager/cellular_hal_qmi_apis.c:5287-5352 | the run of granted requests that shows the difference |
| `ProfileListing.CollectionHandsOver` | source/CellularManager/cellular_hal_qmi_apis.c:5578-5833 | whichever operation asked for the list, under any answers: once the flag is up it goes on with the modem's whole list if every settings request was answered, and with a list that counts nothing otherwise; until then it has not ended |
| `ProfileListing.ListCollected` | source/CellularManager/cellular_hal_qmi_apis.c:5578-5833 | from its list request on: when a list or resync ends the flag is up and the list is the whole modem list with its settings, or it counts nothing; exactly when every settings request was answered |
| `ProfileListing.FullListFaithful` | source/CellularManager/cellular_hal_qmi_apis.c:5618-5750 | entry i is a 3GPP profile with the modem's i-th number and values, its PDP type and authentication by their tables, and its texts if they print themselves, keeps what its memory held for settings not reported, and is flagged default exactly when it is the cached default; with distinct numbers at most one is |
| `ProfileListing.DefaultFaithful` | source/CellularManager/cellular_hal_qmi_apis.c:4735-4836 | the modem's default profile keeps its number and takes every reported setting, its texts cut to their buffers |
| `ProfileListing.EntryTextsExactly` | source/CellularManager/cellular_hal_qmi_apis.c:5623-5665 | name, APN, user and password of an entry are the modem's, cut to their buffers, whatever strays into them, if and only if each prints itself when taken as a format |
| `ProfileListing.EntryLosesPercent` | source/CellularManager/cellular_hal_qmi_apis.c:5747-5747 | a name with a doubled percent sign is kept with one |
| `ProfileListing.EntryMatchesExactly` | source/CellularManager/cellular_hal_qmi_apis.c:5168-5172 | the cached entry of just the profile asked for matches it, whatever strays into its texts, if and only if APN, user and password have no percent sign |
| `FormatText.PrintedExactly` | source/CellularManager/cellular_hal_qmi_apis.c:5747-5747 | snprintf with a text as its format leaves that text in the buffer, whatever its missing arguments print, exactly when behind the first percent sign that fits come only percent signs, twice as many as there is room for |
| `FormatText.PrintedShort` | source/CellularManager/cellular_hal_qmi_apis.c:5747-5747 | for a text that fits its buffer that means: no percent sign |
| `ProfileMatching.CreateAsksIffUnmatched` | source/CellularManager/cellular_hal_qmi_apis.c:5142-5212 | a create request goes out, as it was wanted, exactly when no cached entry agrees with it in access point letter by letter but for case, user, password, PDP type and authentication; otherwise set-default gets the first that does |
| `ProfileMatching.CollidesExactly` | source/CellularManager/cellular_hal_qmi_apis.c:5162-5172 | a cached entry stands in the way of a request exactly when all five agree, and for a modify its number differs |
| `ProfileMatching.ModifyAsksIffUnmatched` | source/CellularManager/cellular_hal_qmi_apis.c:5142-5249 | a modify request goes out, as it was wanted, exactly when no cached entry with another number agrees with it in those five; otherwise the run ends |
| `ProfileMatching.MatchSeparates` | source/CellularManager/cellular_hal_qmi_apis.c:5168-5172 | changed in any one of the five, the access point other than in case, an entry that matched does so no longer; nothing else about it counts |
| `ProfileMatching.SeparationLetsCreate` | source/CellularManager/cellular_hal_qmi_apis.c:5142-5212 | with one entry cached the create goes out exactly when the entry differs in one of the five |
| `ProfileListing.CreateRunSound` | source/CellularManager/cellular_hal_qmi_apis.c:5142-5286 | over every run: what is created is what was asked for, and the number made default is the first match's or the one the modem has just given |
| `NetworkMachine.NetworkContext.constructor` | source/CellularManager/cellular_hal_qmi_apis.c:492-512 | a fresh context: both sessions idle, no technology |
| `NetworkMachine.StartTask.Step` | source/CellularManager/cellular_hal_qmi_apis.c:6429-6562 | one invocation of the start switch, from any step |
| `NetworkMachine.StartTask.Begin` | source/CellularManager/cellular_hal_qmi_apis.c:6575-6620 | a start request raises the family's flag and enters the switch |
| `NetworkMachine.StartTask.OnNetworkStarted` | source/CellularManager/cellular_hal_qmi_apis.c:6193-6270 | the network answer stores the handle it carries, or tells NOT_READY and drops the handle when there is a callback |
| `NetworkMachine.StartTask.OnEventsEnabled` | source/CellularManager/cellular_hal_qmi_apis.c:6272-6313 | both registrations are stored for the task's family and the start goes on |
| `NetworkMachine.StartTask.Complete` | source/CellularManager/cellular_hal_qmi_apis.c:5903-6427 | every completion of a start, over the two sets of fields, is the one protocol step of its family; the counter rises |
| `NetworkMachine.StartTask.Run` | source/CellularManager/cellular_hal_qmi_apis.c:6193-6562 | a whole start run is the protocol's run under the same answers |
| `NetworkMachine.StopTask.DeregisterEvents` | source/CellularManager/cellular_hal_qmi_apis.c:6716-6772 | which registrations a stop drops: the family's own, or the IPv6 one when an IPv4 stop has none |
| `NetworkMachine.StopTask.ReleaseBlocks` | source/CellularManager/cellular_hal_qmi_apis.c:6838-6886 | the client is given back, the technology cleared with the last client, the flag lowered, the task released |
| `NetworkMachine.StopTask.Begin` | source/CellularManager/cellular_hal_qmi_apis.c:6701-6952 | a stop request is ignored while one of its family is in progress; otherwise it runs to its stop request or to its end |
| `NetworkMachine.StopTask.Complete` | source/CellularManager/cellular_hal_qmi_apis.c:6640-6699 | the stop answer, good or bad, drops the handle of the requested family and finishes |
| `NetworkProtocol.Deregistered` | source/CellularManager/cellular_hal_qmi_apis.c:6716-6772 | the exact effect of a stop's deregistration on both sessions |
| `NetworkRuns.StartEnds` | source/CellularManager/cellular_hal_qmi_apis.c:6429-6562 | a start ends within its remaining steps under any answers, released once and last, its flag down |
| `NetworkRuns.StartIsolated` | source/CellularManager/cellular_hal_qmi_apis.c:6193-6562 | a start changes no field of the other family, nor its own stop flag |
| `NetworkRuns.RoundTrip` | source/CellularManager/cellular_hal_qmi_apis.c:6193-6888 | a start under any answers and then a stop leave the family as initialised, whatever the state of the other one; without a client of the other no technology is left, and a vacant other family is untouched |
| `NetworkRuns.ReadySentExactly` | source/CellularManager/cellular_hal_qmi_apis.c:5903-6270 | IP READY is told exactly in the runs with a callback whose client, family, network and lease requests succeeded; the handle is then the answer's, if it carried one |
| `NetworkRuns.ReadyWithoutHandle` | source/CellularManager/cellular_hal_qmi_apis.c:6193-6270 | a run whose network answer carries no handle is told READY and holds none |
| `NetworkRuns.StopIsolation` | source/CellularManager/cellular_hal_qmi_apis.c:6716-6836 | stopping IPv6 changes nothing of IPv4; stopping IPv4 leaves the IPv6 fields alone, and the IPv6 network running, exactly under the stated conditions |
| `NetworkRuns.StopReachesAcross` | source/CellularManager/cellular_hal_qmi_apis.c:6716-6836 | an IPv4 stop with nothing of its own takes a live IPv6 session's events and stops its network |
| `NetworkRuns.StartAddressed` | source/CellularManager/cellular_hal_qmi_apis.c:6450-6453 | every request of a start goes out on a client of its family under all answers, if and only if it is not an IPv6 start that finds an IPv4 client and no IPv6 one |
| `NetworkConversation.StartConverses` | source/CellularManager/cellular_hal_qmi_apis.c:6193-6562 | every start, under all answers, is its conversation: the requests and the client each goes out on, the notices, both registrations, the handle, the technology and the end; the other family untouched |
| `NetworkConversation.SuccessfulStart` | source/CellularManager/cellular_hal_qmi_apis.c:6193-6562 | a start with no refusal ends with the client granted or had, both registrations, the handle and the technology as the modem gave them |
| `NetworkConversation.StartAsksThrough` | source/CellularManager/cellular_hal_qmi_apis.c:6450-6543 | a client is asked for only when IPv4 has none; all else goes out on the client just granted or, if none was asked for, on the one the family has or lacks |
| `NetworkConversation.StopIPv4Exactly` | source/CellularManager/cellular_hal_qmi_apis.c:6716-6886 | all that an IPv4 stop does, in order, and the state it leaves: what it lacks itself it takes from IPv6, but for the client |
| `NetworkConversation.StopIPv6Exactly` | source/CellularManager/cellular_hal_qmi_apis.c:6716-6886 | all that an IPv6 stop does, in order, and the state it leaves |
| `NetworkConversation.StopReleasesExactly` | source/CellularManager/cellular_hal_qmi_apis.c:6838-6868 | a stop gives back the client its own family holds, and no other of either family |
| `NetworkConversation.StopDisconnectsExactly` | source/CellularManager/cellular_hal_qmi_apis.c:6716-6772 | the signals a stop disconnects: its own, and for IPv4 the IPv6 ones that have no counterpart |
| `NetworkConversation.StopAsksExactly` | source/CellularManager/cellular_hal_qmi_apis.c:6776-6832 | a stop request goes out on the client and with the handle of its family, or for IPv4 without a handle with those of IPv6 |
| `NetworkClients.StartAccounts` | source/CellularManager/cellular_hal_qmi_apis.c:6387-6427 | each client, by its number, that is held before a start or granted by it is held after it, but for the one it overwrites |
| `NetworkClients.StopAccounts` | source/CellularManager/cellular_hal_qmi_apis.c:6834-6868 | a stop gives back the very client its family holds, if there is one, once, and none of the other's |
| `NetworkClients.ClientsAddUp` | source/CellularManager/cellular_hal_qmi_apis.c:6387-6888 | over any sequence of starts and stops each of a family's clients, by its number, adds up: granted or held before, it is given back, held after or lost |
| `NetworkClients.StartConservesExactly` | source/CellularManager/cellular_hal_qmi_apis.c:6450-6453 | a start conserves its family's clients under all answers, if and only if it is not an IPv6 start that finds an IPv6 client and no IPv4 one |
| `NetworkSystem.StopExclusivity` | source/CellularManager/cellular_hal_qmi_apis.c:6901-6952 | in every interleaving of starts, stops and completions a family's stop flag is up exactly while one stop task of it is alive, and there are never two |
| `NetworkSystem.FreshExclusive` | source/CellularManager/cellular_hal_qmi_apis.c:6901-6952 | the same from a fresh context |
| `NetworkSystem.StopsConverge` | source/CellularManager/cellular_hal_qmi_apis.c:6640-6952 | from any two sessions, every schedule of stops of both families, overlapping or repeated, under any answers, settles in the one idle state |
| `DeviceOpen.OpenTask.StepToQueries` | source/CellularManager/cellular_hal_qmi_apis.c:1384-1452 | the switch from its first steps: an open device is used, any other created anew |
| `DeviceOpen.OpenTask.StepToEnd` | source/CellularManager/cellular_hal_qmi_apis.c:1494-1543 | the switch from the last two clients on |
| `DeviceOpen.OpenTask.Finish` | source/CellularManager/cellular_hal_qmi_apis.c:1544-1585 | scan, notification and release |
| `DeviceOpen.OpenTask.OnDeviceCreated` | source/CellularManager/cellular_hal_qmi_apis.c:772-817 | a refused device says NOT_READY and goes to the notification; a created one is opened |
| `DeviceOpen.OpenTask.OnDeviceOpened` | source/CellularManager/cellular_hal_qmi_apis.c:596-628 | the open answer sets the status and goes on, or goes to the notification |
| `DeviceOpen.OpenTask.OnClient` | source/CellularManager/cellular_hal_qmi_apis.c:819-852 | a refused client goes to the notification with the status as it is; a granted one is kept |
| `DeviceOpen.OpenTask.OnOperatingMode` | source/CellularManager/cellular_hal_qmi_apis.c:1296-1340 | the mode is offline unless the query succeeds |
| `DeviceOpen.OpenTask.Complete` | source/CellularManager/cellular_hal_qmi_apis.c:596-1340 | every completion does what the protocol does with it; the counter rises but for the device's second request |
| `DeviceOpen.OpenTask.RunAll` | source/CellularManager/cellular_hal_qmi_apis.c:1374-1586 | a whole run of the machine is the protocol's run |
| `DeviceRuns.OpenReportsOnce` | source/CellularManager/cellular_hal_qmi_apis.c:1374-1586 | whatever fails, a run with a callback notifies exactly once and releases its task once, both last: READY exactly when the device is then open, and online exactly when the mode query said so or, in a run refused before it, when the run started so; without a callback only the release |
| `DeviceConversation.OpenConverses` | source/CellularManager/cellular_hal_qmi_apis.c:1374-1586 | every run of opening, under all answers, is its conversation: the requests for what is missing, in order, the end at the first refused device or client, the scan, the last words, and what is then open and held |
| `DeviceRuns.ScanStartedExactly` | source/CellularManager/cellular_hal_qmi_apis.c:1551-1561 | the network scan is started exactly when the device is then open and all three clients are held |
| `DeviceRuns.ReadyExactly` | source/CellularManager/cellular_hal_qmi_apis.c:1389-1412 | the device is open afterwards exactly when it was before or was created and opened by the run |
| `DeviceRuns.ClientsGrantedOnce` | source/CellularManager/cellular_hal_qmi_apis.c:1413-1540 | over any sequence of runs each of the DMS, WDS and NAS clients is granted at most once, and exactly the granted ones are held |
| `SlotSelection.FirstUsable` | source/CellularManager/cellular_hal_qmi_apis.c:2518-2546 | the least slot that is active, has a card and an ICCID, from an index on |
| `SlotSelection.Refresh` | source/CellularManager/cellular_hal_qmi_apis.c:2431-2506 | what a status makes of a slot's record; without a card the old texts stay |
| `SlotSelection.Fill` | source/CellularManager/cellular_hal_qmi_apis.c:2431-2506 | the in-place loop refreshes every record a status is given for, from its own status, and nothing else |
| `SlotSelection.UimContext.Select` | source/CellularManager/cellular_hal_qmi_apis.c:2518-2566 | the selection loop with its early exits chooses as stated and tells exactly the change |
| `SlotSelection.UimContext.Pass` | source/CellularManager/cellular_hal_qmi_apis.c:2404-2567 | one status pass over no more slots than the first had: their records refreshed, the others and, without a word about it, the selection as they were, the selection inside the slots |
| `SlotSelection.UimContext.CardStatus` | source/CellularManager/cellular_hal_qmi_apis.c:3052-3078 | the record read through the selection is in bounds |
| `SlotSelection.ChosenIsUsable` | source/CellularManager/cellular_hal_qmi_apis.c:2518-2566 | after a pass the selection is unknown, or usable by that pass with a record that says so, or as it was because the pass said nothing about it |
| `SlotSelection.RunIsUsable` | source/CellularManager/cellular_hal_qmi_apis.c:2518-2566 | while the slot count stays, the selection after any run of passes is unknown or in range, active, with a card and an ICCID |
| `SlotSelection.NoticesAlternate` | source/CellularManager/cellular_hal_qmi_apis.c:2518-2566 | over any run of passes with a callback, over no more slots than there are, READY and NOT_READY alternate, and the last one heard tells the slot in use |
| `SlotSelection.SilentMove` | source/CellularManager/cellular_hal_qmi_apis.c:2552-2560 | without a callback a lost slot is replaced within the pass |
| `SlotSelection.UnknownPassExactly` | source/CellularManager/cellular_hal_qmi_apis.c:2524-2542 | a pass that finds nothing selected takes the first slot that is active with a card and an ICCID, and stays without one exactly if there is none; a callback hears READY with that slot and nothing else |
| `SlotSelection.SelectedPassExactly` | source/CellularManager/cellular_hal_qmi_apis.c:2544-2564 | a pass keeps the selected slot in silence exactly if it is still active with a card and an ICCID; with a callback it otherwise gives it up with one NOT_READY |
| `SlotSelection.LostSlotExactly` | source/CellularManager/cellular_hal_qmi_apis.c:2544-2564 | without a callback a lost slot is replaced by the first usable one behind it, and by none exactly if there is none |
| `SlotSelection.RefreshedExactly` | source/CellularManager/cellular_hal_qmi_apis.c:2431-2506 | the record of a slot after a pass, field by field |
| `ServingSystem.Filter.Indicate` | source/CellularManager/cellular_hal_qmi_apis.c:3087-3178 | one indication: the pair takes the fields that parsed, and a report goes out exactly when it changed, about the new pair |
| `ServingSystem.ReportsDestutter` | source/CellularManager/cellular_hal_qmi_apis.c:3087-3178 | over any run the reports are the destuttered raw pairs after the first, one for one, each the mapping of the pair just stored |
| `ServingSystem.ReportExactly` | source/CellularManager/cellular_hal_qmi_apis.c:3123-3176 | an indication is reported exactly if it brings another registration or roaming state, with the service by the two attach states if the registration changed and none otherwise |
| `ServingSystem.ServiceOnlyOnChange` | source/CellularManager/cellular_hal_qmi_apis.c:3123-3155 | a service is reported only by an indication that changes the registration |
| `ServingSystem.Replay` | source/CellularManager/cellular_hal_qmi_apis.c:3087-3178 | the object's whole history of reports is that function of its indications |
| `Bcd.DecodeIccid` | source/CellularManager/cellular_hal_qmi_apis.c:2370-2384 | the decoder's loop yields the table character of every half byte, low half first |
| `Bcd.DecodeEid` | source/CellularManager/cellular_hal_qmi_apis.c:2386-2402 | for 16 bytes the EID decoder is the ICCID decoder on bytes with their halves swapped, and nothing otherwise |
| `Bcd.DecodedStopsAtNonDigit` | source/CellularManager/cellular_hal_qmi_apis.c:2370-2384 | for any bytes the C string is the decimal half bytes before the first that is not, at most two per byte |
| `Bcd.DecodeInvertsPacking` | source/CellularManager/cellular_hal_qmi_apis.c:2370-2384 | decoding the swapped-nibble, filled-up packing of any digits gives them back (section 13.2 of ETSI TS 102 221) |
| `Bcd.PackingInvertsDecode` | source/CellularManager/cellular_hal_qmi_apis.c:2370-2384 | packing what was decoded gives back every byte string a card could hold |
| `BearerPath.PathRoundTrip` | source/CellularManager/cellular_hal_modem_apis.c:352-379 | the number parsed from a bearer's path prints back to that path, whatever the buffer held, if and only if the index is under a million |
| `BearerPath.ShortIndexParses` | source/CellularManager/cellular_hal_modem_apis.c:354-355 | up to six digits parse to the index whatever lies behind the buffer's last byte |
| `BearerPath.LongIndexMisparses` | source/CellularManager/cellular_hal_modem_apis.c:354-355 | for seven digits or more some buffer content parses to another number |
| `BearerTable.Modem.Compact` | source/CellularManager/cellular_hal_modem_apis.c:389-427 | the in-place loop moves everything behind the removed entry up by one, frees that entry, and touches nothing when none matches |
| `BearerTable.Modem.ProfileDelete` | source/CellularManager/cellular_hal_modem_apis.c:368-432 | the live sequence loses exactly the matching bearer, in order; it is freed once; DELETED is told only if the modem agreed |
| `BearerTable.Modem.ProfileCreate` | source/CellularManager/cellular_hal_modem_apis.c:287-364 | a new bearer comes last and its number is parsed from its path; a refused one leaves the live ones as they were, and the refusal for want of room still says READY |
| `BearerTable.Modem.ProfileModify` | source/CellularManager/cellular_hal_modem_apis.c:436-440 | a matching delete and a successful create keep the count and put the new bearer last |
| `BearerTable.WithoutAt` | source/CellularManager/cellular_hal_modem_apis.c:389-432 | with distinct paths deletion is removal at the one matching place |
| `BearerTable.SoundWithout` | source/CellularManager/cellular_hal_modem_apis.c:389-432 | removal keeps the table packed and distinct, nothing live freed, nothing freed twice |
| `BearerTable.DeleteFindsCreated` | source/CellularManager/cellular_hal_modem_apis.c:352-432 | deleting with the number creation parsed removes exactly that bearer, for indices under a million |
| `BearerTable.DeleteFindsFirst` | source/CellularManager/cellular_hal_modem_apis.c:375-432 | deleting without a profile removes exactly the modem's first bearer, or none if it has none |
| `CommandMailbox.ExecutesLatest` | source/CellularManager/cellular_hal_modem_apis.c:952-1009 | in every interleaving the command executed is the latest posted, never an earlier one again, and no post overlaps an execution |
| `CommandMailbox.ExecutesOnce` | source/CellularManager/cellular_hal_modem_apis.c:952-1009 | without spurious wakeups the executed posts strictly increase |
| `CommandMailbox.MailboxDelivers` | source/CellularManager/cellular_hal_rndis_apis.c:283-370 | the same from the start of either HAL: executed posts are a subsequence of the posts, none run twice |
| `CommandMailbox.SpuriousRunsTwice` | source/CellularManager/cellular_hal_modem_apis.c:960-1003 | a spurious wakeup executes the command in the slot again |
| `CommandMailbox.ExecutesWithOwnArgument` | source/CellularManager/cellular_hal_modem_apis.c:1277-1308 | arguments stored under the mutex reach the command they were posted with, in every interleaving |
| `CommandMailbox.EarlyArgumentMixesUp` | source/CellularManager/cellular_hal_rndis_apis.c:484-508 | stored before the mutex is taken, the next poster's argument for the same variable reaches the command before it |
| `CommandMailbox.EarlyArgumentsExactly` | source/CellularManager/cellular_hal_rndis_apis.c:403-598 | stored early, arguments reach their own commands in every interleaving of the posts the callers make, if and only if any two of those posts that share a variable carry the same argument |
| `CommandMailbox.PostedTurn` | source/CellularManager/cellular_hal_modem_apis.c:1277-1308 | a poster's undisturbed turn fills the slot and wakes a waiting worker |
| `CommandMailbox.WorkedTurn` | source/CellularManager/cellular_hal_modem_apis.c:960-1003 | a woken worker executes the slot and comes back to its wait |
| `HotPlug.HotPlugConsistent` | source/CellularManager/cellular_hal_device_manager.c:240-356 | in every interleaving of udev events and calls: outside the handler's critical section the table is whole and empty exactly when REMOVED; between events the device type names it; every call goes to the installed table's entry or to none where it has none |
| `HotPlug.AddInstalls` | source/CellularManager/cellular_hal_device_manager.c:243-294 | a supported driver plugged in while none is installed installs its vendor's whole table |
| `HotPlug.AnyRemovalClears` | source/CellularManager/cellular_hal_device_manager.c:298-353 | any supported driver unplugged clears the table, whichever vendor's it is |
| `HotPlug.SwapTurn` | source/CellularManager/cellular_hal_device_manager.c:258-271 | a whole turn of the handler under the mutex replaces the table by its goal and nothing else |
| `HotPlug.DriversExactly` | source/CellularManager/cellular_hal_device_manager.c:247-281 | the three RNDIS and four modem drivers by name; any other changes nothing |
| `HotPlug.PluggedExactly` | source/CellularManager/cellular_hal_device_manager.c:247-294 | entry by entry, what is installed after each driver, the entries the RNDIS HAL lacks being empty, and the device type |
| `InterfaceIndex.IndexCache.FindInList` | source/CellularManager/cellularmgr_cellular_apis.c:544-554 | the first cached index of the name, or 0xFF |
| `InterfaceIndex.IndexCache.Lookup` | source/CellularManager/cellularmgr_cellular_apis.c:556-606 | the cached index or the search's, a found name appended to the cache; failed reads yield -1 |
| `InterfaceIndex.SearchIsLeast` | source/CellularManager/cellularmgr_cellular_apis.c:584-606 | the search yields the least 1-based entry having the name as a prefix, or -1 |
| `InterfaceIndex.CacheTransparent` | source/CellularManager/cellularmgr_cellular_apis.c:556-606 | over a fixed table every lookup of any sequence returns what the search without a cache returns |
| `InterfaceIndex.CacheFitsExactly` | source/CellularManager/cellularmgr_cellular_apis.c:541-606 | over a fixed bus the cache keeps to its 16 places in all sequences of lookups of known names, if and only if none of them is found at place 255 and at most 16 are found at all |
| `InterfaceIndex.CacheFits` | source/CellularManager/cellularmgr_cellular_apis.c:541-600 | in particular over a table of fewer than 255 interfaces while at most 16 names are looked up |
| `InterfaceIndex.SentinelGrows` | source/CellularManager/cellularmgr_cellular_apis.c:544-567 | an interface at place 255 is cached anew by every lookup |

## Left out

- Device removal: the body of the removed callback sleeps, races with live tasks and clears the context; runs are taken without removal.
- Two profile operations at once: they share one cached list and one set of flags; the runs here are of one operation at a time. Network starts and stops do overlap, in `NetworkSystem`.
- The policy state machine that calls the HALs, the waiters that poll with sleeps, timeouts, AT and shell commands, DHCP and logging.
- A failed `malloc` of the profile list (cellular_hal_qmi_apis.c:5820-5824), which stalls the task; memory is assumed to be there.
- The LTE attach requests, which the code compiles out, and the AT-command variant of the firmware query.
- A request for an unspecified IP family: it passes the flag tests and runs as IPv6 with no start flag raised.
- NetworkSystem.StopsConverge: says where every settled schedule ends, not that the modem will answer.
- DeviceRuns.ClientsGrantedOnce: runs one after the other; the code has no guard against two at once.
- ServingSystem.Filter.Indicate: an indication in which both fields fail keeps the pair; the source then hands a freed error object on and frees it again (cellular_hal_qmi_apis.c:3121, 3157 and 3160), which is undefined there.
- Registration queries of the monitor (cellular_hal_qmi_apis.c:3246 and 3315) also write the pair the indication filter compares with; the filter starts from any pair instead.
- SlotSelection.UimContext.Pass: for no more slots than were seen first, and for an EID of an eUICC that is empty or has 16 bytes: the code sizes its array once, and copies from a null pointer when the decoder refuses an EID. Buffer sizes of ICCID and EID are not modelled.
- BearerTable.Modem.ProfileDelete: with 16 bearers only when none matches, since the loop then reads past the array; ProfileCreate and ProfileModify write past it with 16 and are stated for fewer.
- AnscEqualString and AnscCopyString are not part of this model; they are taken as exact comparison and copying.
- Callback variables of the ModemManager HAL that keep their first value, and data races on variables read outside a mutex.
- CommandMailbox.MailboxDelivers: safety only; a signal sent while the worker is busy is lost, as in the code, and its command waits for the next signal.
- HotPlug.HotPlugConsistent: the calls of the init and device-property entries made inside the critical section are not logged.
- InterfaceIndex.IndexCache.Lookup: not for a new name found on a full cache, which the code writes past its array.
- InterfaceIndex.CacheTransparent: for a WAN table that does not change between lookups; the cache is never emptied. Names are taken to fit their 16 bytes.
- Radio conditions, technology bit maps, subnet masks, field-copying getters, function-table contents beyond which entries are empty, and configuration plumbing: single-branch code.
