# A Dafny model of xdialserver

xdialserver is a DIAL 2.2.1 server: it lets a second-screen client find a device and
launch, query, hide and stop applications on it. This project models the parts of it
that carry state or parse text, and proves what they keep over whole runs.

`dafny verify dfyconfig.toml` checks everything.

## How the model is organised

| file | models |
|---|---|
| `Worker.dfy` | the queue protocol of the request and response workers, one step for each shared access |
| `DialData.dfy`, `Query.dfy`, `Uri.dfy` | the three text parsers: dial-data files, query strings, request paths |
| `Registry.dfy` | registry entries, the ordered registry, registering a configuration |
| `StatusCache.dfy` | the pointer-owning map and the application status cache |
| `Platform.dfy` | application start, stop, hide and state in the operating-system layer |
| `Apps.dfy` | the list of live application instances and their dial-data files |
| `RestSpec.dfy` | request handlers, registration and clean-up as functions on values |
| `RestServer.dfy` | the same as an object whose methods update its fields, each tied to its function |
| `RestProofs.dfy`, `Runs.dfy`, `Guarantees.dfy` | what each operation, each step and each run of the server keeps |
| `Outcomes.dfy`, `LocalPosts.dfy` | what each remote and local request does, said outright |
| `Ssdp.dfy` | the cached dd.xml response |
| `Shield.dfy`, `Async.dfy` | connection timers and weak references; asynchronous contexts and their sources |
| `Service.dfy` | the request worker and the server together, under any interleaving |

Objects that the program updates in place are classes here, and their methods are
proved equal to functions on values (`View() == F(old(View()))`). The properties are
proved about those functions, so they hold of the methods. What a function means is said
in statuses, texts, notices and addresses, not through the function itself. The workers are a relational
transition system: a state, the steps each thread can take, and runs as lists of steps.

## What is assumed

- Flags are sequentially consistent and single queue operations are atomic. Testing Run
  under the mutex is one step. A handler, and the work done for one dispatched payload,
  runs to completion before the next, except for notifications during a hide
  (`Guarantees.HideOutcome`).
- The platform layer is initialised. `ENABLE_NETFLIX_STOP` and the Netflix stop file are
  absent. `SYSTEM_SLEEP_REQUEST_KEY` is a parameter of each request.
- Library results are inputs: the scheme found in an Origin header, the decoded form body
  with the order its table is walked in, the numbers in `clientDialVer`, fresh timer ids.
- Writing a dial-data file succeeds, and applications with different names have different
  files.
- A dd.xml reply has its text by value. The program hands libsoup a pointer to the cached
  text (`SOUP_MEMORY_STATIC`) which the name setters free, so a reply still being sent then
  is outside the model.
- A missing string prints as `(null)`, as the C library does it.
- An absent or empty Origin header has no scheme.
- Pointers have eight bytes, which decides how many characters of the server's URI are
  compared (see `Guarantees.ReachableIff`).
- Where dial data is followed by address, every registered application has a URI of its
  own, "/" and a UUID that fits a component (`LocalPosts.OwnUris`).
- Timers for scheduled state requests may fire at any time, in any order, or never.

## Where the code does not do what one would expect

Each of these is proved together with the exact condition under which the code behaves.

- A payload pushed between the emptiness test and the clearing of Run is left in the
  queue of a sleeping worker (`Worker.StrandingRun`); this is the only way to lose a
  wake-up (`Worker.WakeInvariantIff`), and the next send repairs it in every interleaving
  (`Worker.NextSendRecoversAll`).
- The response worker calls onStopped without testing the observer. It crashes if and only
  if it gets there with no observer set (`Worker.CrashIff`, `Worker.CrashRun`).
- A hide fails with 500 when the request worker notes, between the reading of the state and
  the hiding, that the application is no longer running (`Guarantees.HideOutcome`).
- Dial data does not survive being written and read unless every key and value is
  non-empty, free of white space and at most 255 bytes long, with one odd exception
  (`DialData.RoundTripIff`).
- A second live `system` instance appears when a configured prefix covers that name and
  the next configuration drops it (`Guarantees.SecondSystemInstance`). It cannot when no
  such prefix is configured and `system` is not unregistered on its own, which the program
  never does (`Guarantees.SafeRunsKeepInvariants`); step by step the condition is exact
  (`Runs.UniqueStepIff`).
- Four names share cache ids in pairs, so one of a pair can be shown the other's state
  (`StatusCache.AlwaysFindsLastIff`); what a search finds after ids were reassigned is
  `StatusCache.SearchAfterReassigning`.
- A stray `%` in a query switches off percent-decoding for all of it
  (`Query.ParseQueryJoin`).
- A path of fitting pieces followed by empty ones only makes the second loop of the URI
  code read past the vector of pieces (`Uri.SplitUri`). The server's URI followed by `/` is
  such a path and passes every check before, if the URI is longer than seven characters
  (`Guarantees.TrailingSlashOverrunsIff`); paths without a trailing slash never are.
- The length of the server's URI is taken with `sizeof` of a pointer, and its only piece
  must have no `/` and fit a component. Requests can be served if and only if the URI has
  7 to 64 characters and no inner `/` (`Guarantees.ReachableIff`); the environment can set
  others, such as `apps` or `apps/v1`, with which every request is refused.
- Starting the dd.xml responder again without stopping it keeps the old description, which
  is wrong exactly when another name is in force (`Ssdp.StepCoherentIff`,
  `Ssdp.StaleRestartRun`). Only a direct second call of `gdial_ssdp_new` does this: the
  service's own second start fails earlier, when it listens on its ports.
- Table equality is exact only when the first table holds no NULL value
  (`DialData.EqualDecidesEqualityIff`).

The comments in `server/gdial-rest.c` say that paths start with `/apps` and must not end
with a slash; the code uses the server's UUID instead and does not check the slash. The
model follows the code.

## Model

The rows down to `Async.FreedExactlyOnce` are results about all inputs, all runs or all interleavings.
The rows after it tie the methods, which work as the program does, to the functions
those results are about.

| member | source | states |
|---|---|---|
| Worker.FifoConservation | server/gdialservice.cpp:1111-1119 | in every reachable state, with any number of producers, what was dropped, delivered, in flight and queued is exactly what was sent, in order, and each producer's payloads are there in its own order; nothing is delivered before the observer is set |
| Worker.StepInv | server/gdialservice.cpp:629-659 | every step of every thread keeps the protocol invariant |
| Worker.GuaranteedShutdown | server/gdialservice.cpp:535-549 | once the controller has raised Exit and then Run, in every continuation the worker is never asleep, is never stuck unless a producer is in its critical section, makes at most six more steps of its own and pops at most one more payload |
| Worker.AtMostOneMorePop | server/gdialservice.cpp:643-657 | from the moment Exit is up at most one more payload is popped |
| Worker.ExitLowersRun | server/gdialservice.cpp:643-648 | a worker that leaves by the test at line 643 lowers Run, and it stays down unless someone raises it |
| Worker.StoppedOnceAndLast | server/gdialservice.cpp:827-829 | in every reachable state the response worker has called onStopped exactly if it is done, once, after its last dispatch; the request worker never does; only a response worker that delivered nothing can end in the null dereference of line 828 |
| Worker.CrashIff | server/gdialservice.cpp:827-829 | from any state before its end the response worker ends in that null dereference if and only if it gets to its end with no observer set until then |
| Worker.CrashRun | server/gdialservice.cpp:827-829 | a run that stops the service before an observer was set and ends that way |
| Worker.WakeInvariantIff | server/gdialservice.cpp:650-654 | along any run a non-empty queue always implies Run (raised or about to be) if and only if line 652 never runs on a queue refilled since line 650 |
| Worker.AtomicTestNeverStrands | server/gdialservice.cpp:650-653 | with emptiness test and clearing of Run fused the wake-up invariant always holds |
| Worker.StrandingRun | server/gdialservice.cpp:637-654 | a run of the real granularity that ends with the worker asleep on a queued payload |
| Worker.StrandedUntilFlag | server/gdialservice.cpp:637-641 | a stranded worker pops nothing, spurious wake-ups included, until someone raises Run |
| Worker.FlagRestoresWake | server/gdialservice.cpp:1114-1117 | raising Run restores the wake-up invariant for every continuation that avoids the window |
| Worker.NextSendRecoversAll | server/gdialservice.cpp:1111-1119 | take a worker stranded on its queue, any run up to the moment a producer raises Run, and any continuation that gives the worker seven steps for each queued payload: the stranded payloads come first in the queue and all that was sent by then has been dispatched, in order, under every interleaving |
| Worker.SentIsDispatched | server/gdialservice.cpp:650-659 | with Run up, no Exit raised, and the worker neither clearing Run (lines 646-653) nor ended, everything sent so far is dispatched in sending order once the worker has had seven steps for each waiting payload |
| Worker.DispatchesMany | server/gdialservice.cpp:629-659 | from such a state, with n payloads popped or queued, seven worker steps for each dispatch n of them, however they interleave with others, later hits of the window included |
| Worker.RunUpNeverStuck | server/gdialservice.cpp:637-641 | with Run up the worker can move, or the thread that holds the mutex or is about to wake it can |
| Worker.RescueRun | server/gdialservice.cpp:1111-1119 | such a rescue exists: one undisturbed send and the worker alone deliver everything |
| DialData.ParseMakesProgress | server/gdial-util.c:65-68 | on any text each successful scan advances by at least four and only good keys and readable values are inserted |
| DialData.ParsePrinted | server/gdial-util.c:65-68 | for good tables in any order every scan starts on an entry boundary and the table comes back |
| DialData.RoundTripIff | server/gdial-util.c:58-70 | parsing the printed table gives it back if and only if all keys and values are good, or it is a lone good key with an empty value |
| DialData.StorableMeans | server/gdial-util.c:58-70 | that condition, spelled out: 1 to 255 bytes, none of them NUL or white space |
| DialData.PrintedLines | server/gdial-util.c:27-41 | the file is one line "key value" with CR LF for each pair |
| DialData.BlankInValueIsLost | server/gdial-util.c:65-68 | a value with a blank does not come back |
| DialData.EqualDecidesEqualityIff | server/gdial-util.c:122-135 | that decision is table equality, for every second table, if and only if the first has no NULL value |
| Query.FieldsExact | server/plat/gdial.cpp:503-506 | the fields contain no "&" and joined by "&" give the text back |
| Query.QueryMeaning | server/plat/gdial.cpp:507-510 | a key has a value exactly when the last field binding the key is key=value; empty keys and fields without "=" never count |
| Query.ParseTextJoin | server/plat/gdial.cpp:503-513 | joining two decoded queries with "&" parses to the first overridden by the second, for all strings |
| Query.ParseQueryJoin | server/plat/gdial.cpp:491-498 | the same for raw queries, exactly: both halves are decoded or neither is |
| Query.StrayPercentSpoilsTheOtherHalf | server/plat/gdial.cpp:492-494 | an undecodable half leaves the other half undecoded |
| Query.RenderRoundTrip | server/plat/gdial.cpp:489-514 | pairs with separator-free keys and "&"-free values, rendered and escaped, parse back to their table |
| Query.UnescapeAll | server/plat/gdial.cpp:491-498 | percent-decoding gives back any string of bytes but NUL encoded byte by byte, with hex digits of either case |
| Query.BadEscape | server/plat/gdial.cpp:491-498 | a "%" that no two hex digits follow, or that stands for NUL, cannot be decoded |
| Uri.AcceptedRejoins | server/gdial-rest.c:842-860 | the copies of an accepted path joined by "/" are the path, so no truncated name gets through |
| Uri.NoTrailingSlashStaysInside | server/gdial-rest.c:847-860 | a path that does not end in "/" never overruns the pieces |
| Uri.CopiedKeeps63 | server/gdial-rest.c:810-838 | a component buffer keeps exactly the first 63 bytes |
| Registry.RegisterKeepsOrder | server/gdial-rest.c:1142-1158 | registering keeps "no older entry answers to a newer one's name", names stay distinct, and an accepted name resolves to its own entry |
| Registry.RemoveKeepsOrder | server/gdial-rest.c:160-169 | so does removing any entry |
| Registry.ResolvesToItselfIff | server/gdial-rest.c:224-232 | an entry's own name resolves to it exactly when no newer entry has a prefix of it |
| Registry.ReregistrationResult | server/gdialservice.cpp:145-150 | registering the reversed list leaves the kept entries in configuration order, an entry being kept exactly when no kept later one answers to its name |
| Registry.SelectionExists | server/gdial-rest.c:1185-1194 | every configuration has such a selection |
| StatusCache.SearchFindsLast | server/plat/gdialappcache.cpp:62-102 | after any history a search finds the state of the last notification for the name, if nobody else uses its id |
| StatusCache.AlwaysFindsLastIff | server/plat/gdialappcache.cpp:22-40 | that holds after every history exactly for all but four names |
| StatusCache.SearchAfterReassigning | server/plat/gdialappcache.cpp:42-102 | after any history of notifications and reassigned ids a search finds the last notification cached under the name's present id; reassigning changes what the named application shows and nothing else |
| Runs.UniqueStepIff | server/gdial-rest.c:1165-1167 | every step keeps one instance per name if and only if it does not register "system" over a live one |
| Runs.AgreementStepIff | server/gdial-app.c:330-380 | every step keeps memory and files equal if and only if an accepted post is storable |
| Runs.RegistryStep | server/gdial-rest.c:1171-1175 | every step keeps the registry order and the local handlers equal to the URIs of the registered applications other than "system" |
| Runs.RunInv | server/gdial-rest.c:402-673 | all of these hold in every reachable state |
| Runs.DialDataSurvives | server/gdial-app.c:354-380 | in every reachable state each live instance holds the table last posted for its name, whatever happened to earlier instances |
| Runs.ReregistrationFromConfig | server/gdialservice.cpp:136-167 | the registry after a re-registration is the kept configuration entries in order, behind "system" if enabled and unclaimed |
| Guarantees.SafeRunsKeepInvariants | server/gdialservice.cpp:145-161 | if no configured prefix of another application covers "system" and "system" is not unregistered on its own, uniqueness and agreement hold over all runs with nothing asked about live instances |
| Guarantees.SecondSystemInstance | server/gdialservice.cpp:136-167 | a run the service makes (start-up with "system", a configuration with the prefix "sys", a GET of "system") after which an empty configuration creates a second live "system" |
| Guarantees.ClientsSeeLastNotification | server/gdial-app.c:509-550 | after any run a GET reports what the text of the last notification means to a client of that version, and the dial data last posted |
| Guarantees.StateTexts | server/plat/gdial.cpp:783-792 | "running" is running, "suspended" and "hidden" are hidden, every other text is stopped, and "system" is always hidden |
| Guarantees.ShownIsDisplayed | server/gdial-app.c:185-201 | before version 2.1 a hidden application is shown stopped, from 2.1 on hidden; running and stopped are shown as they are |
| Guarantees.HideOutcome | server/gdial-rest.c:372-400 | the exact answer when the request worker dispatches notifications while a hide is served: 404 for a stopped application, 500 if and only if it was running and the last notification in between under its cache id says otherwise, 200 in all other cases |
| Guarantees.UndisturbedHide | server/gdial-rest.c:372-400 | with none in between, 404 exactly for a stopped application and 200 otherwise |
| Guarantees.PostOutcome | server/gdial-rest.c:513-546 | a launch fails only for "system" with a wrong key, and then leaves no instance; 201 exactly for new or hidden applications |
| Guarantees.OnlyPostsLaunch | server/gdial-rest.c:421-500 | over any run the launches queued for the response worker are exactly those of the POSTs that passed all checks, one each, in order |
| Guarantees.DeleteOutcome | server/gdial-rest.c:402-419 | status, liveness and exact requests of a DELETE in each case |
| Guarantees.OriginPolicy | server/gdial-rest.c:244-305 | while a configuration is registered a request can change something only for a name that one of its first 64 entries or an enabled "system" answers for; an https origin must end with that entry's cors; a YouTube name needs an Origin that is https or a package |
| Guarantees.ReachableIff | server/gdial-rest.c:790-868 | some request is admitted for a name if and only if the server URI has 7 to 64 characters and no inner "/", and the name is registered, fits a component and holds no "/" |
| Guarantees.BadUriRefusesAll | server/gdial-rest.c:791-865 | with any other server URI every request is refused with 403, 500 or 501 and changes nothing |
| Guarantees.StaticLocationRefusesAll | server/gdialservice.cpp:336-340 | the static locations "apps" and "apps/v1" give such URIs |
| Guarantees.TrailingSlashOverrunsIff | server/gdial-rest.c:785-860 | a request for the server URI followed by "/" passes every check before the splitter and runs it off the pieces if and only if the URI is longer than seven characters |
| Outcomes.EarlyRefusals | server/gdial-rest.c:785-795 | the checks before the path is split, in order: 501 without IPv4, 500 from 1024 bytes on, 501 up to 8 bytes or with other first seven characters than the server's URI, 403 without Host |
| Outcomes.LateRefusals | server/gdial-rest.c:800-888 | the checks after it: 501 for unservable pieces, 404 for an unregistered name, 403 for a refused origin, otherwise the pieces are admitted |
| Outcomes.RefusedChangesNothing | server/gdial-rest.c:785-888 | a refused request changes nothing and gets just its status |
| Outcomes.OriginRule | server/gdial-rest.c:244-305 | exactly which origins pass, the suffix written out as a concatenation: YouTube wants a package or an admitted https origin, others only need admission for https and package |
| Outcomes.GetRequest | server/gdial-rest.c:550-619 | a GET of [base, name] answers 200 with the name, the state its text means to the client's version, a run link unless it is stopped, and the data of its file; the instance lives on, in that state, exactly if the application is up; one state request is queued |
| Outcomes.PostRequest | server/gdial-rest.c:421-548 | a POST of [base, name]: 413 over 4096 bytes, 400 for unprintable text, 500 without a port; otherwise the exact notice, timer, liveness, state, payload and status (201, 200, or 503 for a wrong power key) |
| Outcomes.DeleteRequest | server/gdial-rest.c:932-951 | a DELETE of [base, name, instance]: 404 if not live or not up, 403 for "system", otherwise 200, the instance is gone and a stop is queued between state requests |
| Outcomes.HideRequest | server/gdial-rest.c:965-984 | a POST of [base, name, instance, "hide"]: 404 if not live or not up, otherwise 200; a hide is queued exactly if it is running; everyone stays live |
| Outcomes.NoSuchInstance | server/gdial-rest.c:345-370 | a DELETE or hide for another instance, or of an application not live, is 404 and changes nothing |
| Outcomes.NamesInstanceIff | server/gdial-rest.c:345-370 | an instance is "run", nothing, or blanks, a sign and a decimal number |
| Outcomes.OtherRequests | server/gdial-rest.c:898-995 | every other verb and shape changes nothing and gets its literal status |
| Outcomes.TimerStep | server/plat/gdial-plat-app.c:117-126 | a scheduled request that fires asks once, for every application but "system", and is gone |
| Outcomes.UnregisterStep | server/gdial-rest.c:1248-1255 | unregistering takes out the entry that answers and its handler, nothing else |
| Outcomes.ReregisterNotices | server/gdial-rest.c:1219-1230 | a registration tells every live registered application but "system" to stop, in registry order, with two state requests each, and sends nothing else |
| Outcomes.RegistryOfConfig | server/plat/gdial.cpp:118-151 | the registry a configuration leaves, field by field: the kept ones of its first 64 entries, in order, with their name, URI, prefix, cors and allowStop, behind an unclaimed "system" |
| LocalPosts.PostToAddress | server/gdial-rest.c:621-673 | a local POST to the dial data of an application's own URI answers 200 and makes what is posted the file and table of that application and of no other; 413 from 8192 bytes on, 400 for unprintable text, and then nothing changes |
| LocalPosts.GetFromAddress | server/gdial-rest.c:738-750 | a local GET there answers for that application |
| LocalPosts.OtherVerbAtAddress | server/gdial-rest.c:738-750 | other verbs there are 501 and change nothing |
| LocalPosts.ElsewhereNothing | server/gdial-rest.c:695-756 | any other path changes nothing: 501 at or below a served URI, 404 elsewhere |
| LocalPosts.NoSuchUuid | server/gdial-rest.c:738-740 | a UUID no entry has is 404 and changes nothing, whatever is registered |
| LocalPosts.AcceptedPostIff | server/gdial-rest.c:695-756 | the accepted posts are exactly those to URI + "/dial_data", with a doubled or trailing "/" forgiven |
| LocalPosts.AddressDataSurvives | server/gdial-app.c:354-380 | after any run each live instance holds what was last posted to the address of its application |
| LocalPosts.ClientIsAnswered | server/plat/gdial.cpp:781-792 | after any run a GET says running, hidden or stopped as the text of the last notification has it and the client's version may see it, with the data last posted to the application's address |
| Service.MoveInv | server/gdialservice.cpp:656-694 | every move of senders, worker and clients keeps cache and registry in step with what was dispatched |
| Service.RestSideIsRun | server/gdialservice.cpp:656-694 | every run of worker and server together is, on the server's side, a legal run of the REST server alone ending in the same state |
| Service.DispatchedIsWhatClientsSee | server/gdialservice.cpp:656-694 | under any interleaving what was dispatched is a stretch of what was sent, the registry is the last dispatched configuration's, and reported states decode the last dispatched notifications |
| Service.ServedReply | server/gdialservice.cpp:656-694 | under any interleaving of senders, worker, clients and timers a GET is answered with the state of the last dispatched notification, as the client's version must see it, and the dial data last posted; asked are safe configurations and storable posts |
| Service.SentIsServed | server/gdialservice.cpp:1111-1119 | from sender to client: take a moment of a run with Run up, no Exit, the worker not clearing Run and an observer that has missed nothing; once the worker has had seven more steps for each payload then waiting, interleaved at will, the answer decodes a stretch of what was sent that holds at least everything sent by that moment, and the last notification sent if nothing was sent since |
| Service.LaunchesReachObserver | server/gdialservice.cpp:751-785 | the launches the response worker drops or delivers are the first launches of accepted POSTs, in order, whatever its interleaving: the observer is told of nothing else and of none twice |
| RestProofs.KeptPost | server/gdial-rest.c:421-548 | a POST touches no file, no cached state and no other name's instances, and keeps uniqueness and agreement, failed starts included |
| RestProofs.KeptGet | server/gdial-rest.c:550-619 | the same for a GET |
| RestProofs.KeptDelete | server/gdial-rest.c:402-419 | the same for a DELETE, and after an accepted one the name is not live |
| RestProofs.KeptHide | server/gdial-rest.c:372-400 | the same for hide |
| RestProofs.DialDataEffect | server/gdial-rest.c:633-668 | an accepted dial-data post replaces exactly that application's file and leaves it live |
| RestProofs.DialDataAgreesIff | server/gdial-rest.c:646-668 | it keeps memory and files equal exactly when what it stores can be read back |
| RestProofs.UnregisterHandlersIff | server/gdial-rest.c:160-169 | unregistering one application leaves exactly the others' handlers if and only if no other one shares its URI |
| RestProofs.StopEachCounts | server/gdial-rest.c:1220-1234 | the first walk takes exactly one instance of each registered name |
| RestProofs.UnregisterAllComplete | server/gdial-rest.c:1211-1242 | the registry and its handlers are empty afterwards, and a registered name is still live exactly when it had two instances |
| Apps.NewKeepsUniqueIff | server/gdial-app.c:178-183 | creating an instance keeps names unique exactly when the name is not live |
| Apps.SetDataAgreesIff | server/gdial-app.c:330-346 | posting a table keeps memory equal to file exactly when the table is storable |
| Ssdp.CacheIsTransparent | server/gdial-ssdp.c:82-151 | over any sequence of starts, requests, name changes and stops without such a restart the cached server answers exactly like one that renders anew each time |
| Ssdp.ServedText | server/gdial-ssdp.c:82-151 | what a GET is served, from the events alone: the last friendly name accepted with the feature on, if it is on and the name is not empty, the last manufacturer and model set, otherwise the options or their literal defaults, and the UUID, each in its element; and the application URL |
| Ssdp.OnlyGet | server/gdial-ssdp.c:86-91 | any other method is answered 400 and leaves the cache alone |
| Ssdp.AlternatingIsNeverStale | server/gdial-ssdp.c:171-321 | when starts and stops alternate there is no such restart |
| Ssdp.AlwaysRightIff | server/gdial-ssdp.c:82-151 | for names without "<", a GET would be answered rightly at every moment of a run if and only if the run holds no such restart |
| Ssdp.RenderInjective | server/gdial-ssdp.c:63-74 | names without "<" can be read off the description, so different names give different texts |
| Ssdp.MarkupCollides | server/gdial-ssdp.c:63-74 | with markup in them different names can give the same text |
| Ssdp.StaleRestart | server/gdial-ssdp.c:103-131 | start, GET, start with other names in force, GET: the second reply is the first description again |
| Ssdp.StaleRestartRun | server/gdial-ssdp.c:103-131 | such a run with two friendly names, whose second reply is wrong |
| Ssdp.StepCoherent | server/gdial-ssdp.c:331-389 | every event keeps the cached text equal to a fresh rendering, and the stored length equal to its length, unless it is a start over a cached text under which another name is in force |
| Ssdp.StepCoherentIff | server/gdial-ssdp.c:171-189 | for names without "<" a start over a cached text keeps it right if and only if the four names in force stay the same |
| Shield.StepInvIff | server/gdial-shield.c:36-115 | every event keeps "pending timers are the recorded ids, weak references are the keys" if and only if it does not start a message already in the table |
| Shield.PendingTimerIsLive | server/gdial-shield.c:52-63 | in every run a pending timer's message exists and is recorded under that id |
| Shield.TimeoutCloses | server/gdial-shield.c:52-63 | a pending timer that fires closes exactly the socket its request was started on |
| Shield.ClosedIff | server/gdial-shield.c:36-115 | over any run a socket is closed if and only if some request was started on it and its timer fired before the request was read, aborted or finalised |
| Shield.DoneMeansDisarmed | server/gdial-shield.c:66-98 | after read, abort or finalisation no timer can close the connection |
| Shield.RemovalCommutes | server/gdial-shield.c:36-50 | removal is idempotent and order does not matter |
| Shield.TermLeavesWeakRefs | server/gdial-shield.c:133-148 | the final clean-up leaves no timer and no connection, but every weak reference |
| Async.FiredPaired | server/plat/gdial-plat-app.c:67-136 | a firing keeps contexts and pending sources in bijection and frees exactly its own context, not freed before |
| Async.FiringLeaves | server/plat/gdial-plat-app.c:67-136 | a stop callback, and the start callbacks of "Netflix" and "Youtube", leave a state request for the same application; no other callback leaves anything |
| Async.FiredDecreases | server/plat/gdial-plat-app.c:67-136 | each firing makes the number of contexts, start and stop ones counted twice, smaller |
| Async.FiringsDrain | server/plat/gdial-plat-app.c:264-276 | in any order there are at most as many firings as the measure, each frees one context, and with no source left the table is empty |
| Async.FreedExactlyOnce | server/plat/gdial-plat-app.c:67-136 | over any mixture of requests, firings and removals contexts and pending sources stay in bijection, each firing or removal frees one context not freed before, every context ever created is in the table or freed and never both, and with no source pending all are freed |
| DialData.ToString | server/gdial-util.c:27-41 | the printed text is the concatenation of one line per entry in walking order, and the length is its length |
| DialData.FromString | server/gdial-util.c:58-70 | the offset loop computes the parse of the text that is left after each scan |
| DialData.IsAsciiPrintable | server/gdial-util.c:85-96 | true exactly for non-empty strings of graphic characters and ASCII white space |
| DialData.Dup | server/gdial-util.c:101-116 | the copy equals the source, NULL values included |
| DialData.Equal | server/gdial-util.c:118-138 | decides equal sizes and equal lookups of every key of the first table |
| Query.Parse | server/plat/gdial.cpp:489-514 | the index loop computes the meaning of the decoded query, fields split at "&" and each at its first "=" |
| Uri.SplitUri | server/gdial-rest.c:800-868 | a path is accepted exactly when it has two to four pieces, each non-empty and under 64 bytes, and the first is the server's own; the pieces are overrun exactly when fitting pieces are followed only by empty ones |
| Registry.NewEntry | server/plat/gdial_app_registry.c:67-97 | prefixes and origins come out reversed, empty prefixes left out; the properties are copied as they are |
| Registry.MatchName | server/gdial-rest.c:198-214 | an entry answers to a name exactly when one of its prefixes is a prefix of it or it is its own name |
| Registry.IsAllowedOrigin | server/plat/gdial_app_registry.c:45-65 | true exactly when there are no origins or some origin is a suffix of the header |
| Registry.BuildAppList | server/plat/gdial.cpp:118-151 | the list is the first 64 configuration entries in reverse |
| StatusCache.ObjectCache.Insert | server/plat/gdialobjCacheHelper.hpp:81-99 | NULL and duplicate entries change nothing and say so; otherwise the entry is owned by the map |
| StatusCache.ObjectCache.Touch | server/plat/gdialobjCacheHelper.hpp:101-114 | only the found entry's time stamp changes |
| StatusCache.ObjectCache.Erase | server/plat/gdialobjCacheHelper.hpp:116-129 | exactly the erased entry is deleted |
| StatusCache.ObjectCache.Destroy | server/plat/gdialobjCacheHelper.hpp:58-66 | every owned entry is deleted, none twice |
| StatusCache.AppStatusCache.GetAppCacheId | server/plat/gdialappcache.cpp:25-40 | the id under which a name is cached |
| StatusCache.AppStatusCache.SetAppCacheId | server/plat/gdialappcache.cpp:42-60 | only the two special names can be given another id |
| StatusCache.AppStatusCache.UpdateAppStatusCache | server/plat/gdialappcache.cpp:62-81 | never fails; the new status replaces the old one, whose object is the only one deleted |
| StatusCache.AppStatusCache.SearchAppStatusInCache | server/plat/gdialappcache.cpp:83-102 | the cached state or NOT_FOUND, the cache's contents unchanged |
| Platform.GDialPlatform.Start | server/plat/gdial.cpp:516-562 | a launch is passed on, except sleep and power-toggle requests to "system", which fail exactly on a wrong key |
| Platform.GDialPlatform.Stop | server/plat/gdial.cpp:626-668 | refused for "system", otherwise always passed on |
| Platform.GDialPlatform.Hide | server/plat/gdial.cpp:670-719 | passed on only for an application cached as running |
| Platform.GDialPlatform.State | server/plat/gdial.cpp:754-815 | the decoded cache state, with a refresh request; hidden for "system" |
| Platform.GDialPlatform.StateChanged | server/plat/gdial.cpp:68-95 | one notification reaches the cache |
| Apps.AppStore.FindInstanceByName | server/gdial-app.c:392-399 | the first live instance of a name |
| Apps.AppStore.New | server/gdial-app.c:203-210 | a stopped instance is linked in front, holding what its file holds |
| Apps.AppStore.Dispose | server/gdial-app.c:66-87 | exactly that instance is unlinked |
| Apps.AppStore.Start | server/gdial-app.c:212-228 | the whole new store of a start, success or not, the state request it schedules included |
| Apps.AppStore.FireTimer | server/plat/gdial-plat-app.c:117-126 | a scheduled state request asks the observer and changes nothing else |
| Apps.AppStore.State | server/gdial-app.c:270-285 | the instance's state becomes the platform's |
| Apps.AppStore.Hide | server/gdial-app.c:230-242 | the whole new store of a hide |
| Apps.AppStore.Stop | server/gdial-app.c:258-268 | the whole new store of a stop |
| Apps.AppStore.SetAdditionalDialData | server/gdial-app.c:330-346 | table and file are replaced together; nothing happens for the empty name |
| RestServer.GDialRestServer.RegisterAppRegistry | server/gdial-rest.c:1180-1209 | a duplicate changes nothing; otherwise entry and handler are added |
| RestServer.GDialRestServer.RegisterApp | server/gdial-rest.c:1132-1178 | the same, and "system" gets an instance at once |
| RestServer.GDialRestServer.UnregisterApp | server/gdial-rest.c:1248-1255 | the first answering entry and its handler are removed |
| RestServer.GDialRestServer.UnregisterAllApps | server/gdial-rest.c:1211-1242 | the two walks have the effect of the function the completeness result is about |
| RestServer.GDialRestServer.ServerRegisterApplication | server/gdialservice.cpp:136-167 | clean-up, then the list, then "system" |
| RestServer.GDialRestServer.RegisterApplications | server/plat/gdial.cpp:111-168 | a configuration is registered end to end |
| RestServer.GDialRestServer.HandlePOST | server/gdial-rest.c:421-548 | new store and status of a POST |
| RestServer.GDialRestServer.HandleGET | server/gdial-rest.c:550-619 | new store and report of a GET |
| RestServer.GDialRestServer.HandleDELETE | server/gdial-rest.c:402-419 | new store and status of a DELETE |
| RestServer.GDialRestServer.HandlePOSTHide | server/gdial-rest.c:372-400 | new store and status of a hide |
| RestServer.GDialRestServer.HandlePOSTDialData | server/gdial-rest.c:621-673 | new store and status of a dial-data post |
| RestServer.GDialRestServer.IsAllowedOrigin | server/gdial-rest.c:244-305 | decides the origin rule of section 6.6 of the DIAL 2.2.1 specification as the code has it, with the stricter one for YouTube |
| RestServer.GDialRestServer.HandleApps | server/gdial-rest.c:758-995 | new state and reply of any remote request that does not run the splitter off its pieces |
| RestServer.GDialRestServer.HandleLocal | server/gdial-rest.c:695-756 | new state and reply of any local request |
| RestServer.GDialRestServer.HandleTimer | server/plat/gdial-plat-app.c:117-126 | new state when a scheduled state request fires |
| RestServer.GDialRestServer.ApplicationStateChanged | server/gdialservice.cpp:662-673 | new state after a notification |
| Ssdp.SsdpServer.Start | server/gdial-ssdp.c:171-256 | options with defaults in place, whether or not a server is running, failing without an interface address |
| Ssdp.SsdpServer.Respond | server/gdial-ssdp.c:82-151 | body, length and application URL of the reply, and the filled cache |
| Ssdp.SsdpServer.SetFriendly | server/gdial-ssdp.c:331-349 | takes effect, and drops the cache, only with the feature on and a server running |
| Ssdp.SsdpServer.SetManufacturer | server/gdial-ssdp.c:351-369 | any name takes effect and drops the cache |
| Ssdp.SsdpServer.SetModel | server/gdial-ssdp.c:371-389 | any name takes effect and drops the cache |
| Ssdp.SsdpServer.Stop | server/gdial-ssdp.c:258-321 | cache and options go, the names set at run time stay |
| Shield.ConnectionShield.RequestStarted | server/gdial-shield.c:100-115 | timer, table entry and weak reference are added together |
| Shield.ConnectionShield.RequestRemove | server/gdial-shield.c:36-50 | the timer is cancelled and exactly the message's context freed |
| Shield.ConnectionShield.RequestDone | server/gdial-shield.c:66-88 | read and abort have the same effect |
| Shield.ConnectionShield.ReadTimeout | server/gdial-shield.c:52-63 | the recorded socket is closed and the id cleared |
| Shield.ConnectionShield.MessageFinalized | server/gdial-shield.c:90-98 | the weak reference, if any, is notified and the entry removed |
| Shield.ConnectionShield.Term | server/gdial-shield.c:133-148 | every connection is removed, over a snapshot of the keys |
| Async.AsyncContexts.Request | server/plat/gdial-plat-app.c:201-217 | nothing for the empty name, otherwise one context and one source |
| Async.AsyncContexts.RunCallback | server/plat/gdial-plat-app.c:117-136 | which callbacks schedule a state request |
| Async.AsyncContexts.Fire | server/plat/gdial-plat-app.c:67-97 | callback, then destroy notification |
| Async.AsyncContexts.RemoveAsyncSource | server/plat/gdial-plat-app.c:283-293 | removing a source frees its context once |
| Async.AsyncContexts.Drain | server/plat/gdial-plat-app.c:295-309 | running the loop ends with empty tables and everything freed |

## Left out

- Sockets, libsoup, GSSDP and header plumbing: libraries; requests and replies are data.
- XML text of the GET reply: libxml output; the facts it reports are modelled.
- Real file I/O and UUID generation: files are a map, URIs are given.
- Netflix plug-in calls, power state, environment variables other than the sleep key.
- Paths of the platform layer before `gdial_init` and after `gdial_term`.
- Instance ids: never assigned by the code shown, so every number names the one instance.
- `gdial_app_resume`, `gdial_app_clear_additional_dial_data`, the relaunch test and the
  `GET_APP_response_builder_*` functions: not reached by any request.
- The context objects behind scheduled state requests: in the REST server's runs such a
  request is a name and an event; its context and source are in `Async.dfy`.
- Activation, friendly-name and standby requests in `Service.dfy`: they do not concern the
  REST server; the name setters themselves are in `Ssdp.dfy`.
- Data races between the main loop and the request worker: handlers and dispatches are
  atomic in the model, and so is each notification during a hide.
- Memory ownership beyond cache entries, shield contexts and asynchronous contexts.
- RestServer.GDialRestServer.HandleApps: requires a path on which the splitter stays inside
  its pieces, because the code's behaviour on the others is undefined; `Uri.SplitUri` says
  exactly which those are.
- The process after the response worker crashed: the other threads' steps stay possible
  in the model, which only adds runs.
- Ssdp.SsdpServer.Respond: requires that options are set when the request is a GET, because
  the code then uses them unchecked.
