# A verified model of the Minecraft server daemon

`mcmand` is a daemon that runs Minecraft servers for its clients. It consists of an accept
loop that hands out client ids, one forwarding thread per client, a daemon thread that owns the
servers and answers commands, an event manager thread that owns the subscriptions, one log
thread per server process and one worker thread per installation or update. The threads are
joined by two unbounded queues and one outgoing stream per client. This project models the
daemon in Dafny and proves what it keeps and where it ends.

## The parts

- **The message system** (`System`) is a transition system. A step is one atomic action of one
  thread, and its label carries everything the outside world decides: which thread runs, what a
  client sends, when it stops listening, what a log or worker thread is going to do. Handling a
  command is not one step: every subscription, every launch and the response are steps of their
  own, so the event manager and the workers can run in between. `Lookups`, `Pipeline`,
  `Replies`, `Stopping`, `StopRequests`, `Acknowledgement`, `Registration`, `Answers`,
  `Provenance`, `Sources` and `Routing` each prove invariants of every step; `Runs` combines
  them and states what they mean for every reachable state. `Drain` proves that every schedule
  runs the daemon empty. `Hearing`, `Sessions` and `Clients` follow a whole installation,
  update or shutdown up to the client's receive loop, for every schedule; `Waits` says
  exactly what any other client that subscribes hears, and `Storing` what is stored. `Races` has two runs
  that differ in nothing but the order of threads.
- **The lifecycle of processes** (`Lifecycle`) is a second transition system: processes print
  lines and exit at any moment between the daemon's steps. `Abandonment` says exactly when a
  live process is lost, `Shutdown` what the end of the daemon does to every server.
- **The objects** are classes whose fields are updated in place, as in the program: the event
  manager (`EventManagers`), the server and its process (`Servers`), the daemon with its map of
  servers (`DaemonThread`), its receive loop (`DaemonLoop`), the map of senders and the accept
  loop (`Senders`), the log handler (`LogParser`), the installer and the updater (`Installer`,
  `Updater`), the workers (`Jobs`) and the client (`Clients`). Their methods are proved against
  the functions the two transition systems are made of: `DaemonThread.Daemon.HandleCmd` makes
  exactly the sends of the message system and exactly the step of the lifecycle,
  `DaemonLoop.Loop.Take` does for each message what the message system's steps for it do, and
  `DaemonThread.Daemon.StopServers` is a run of the lifecycle.
- **Versions** (`Semver`, `Decimal`, `Repository`, `Jars`, `Updater`, `Builds`): precedence is
  section 11 of Semantic Versioning 2.0.0; build metadata (section 10) is ignored in precedence
  and compared separately, as the updater does.

A few terms: a state is *reachable* if some run of the daemon leads to it, from any unit files,
any logs of automatically started servers and any steps. A client is *listening* until a send to
it fails; from then on all fail. The daemon is *idle* when both queues, the pending commands and
all threads are exhausted.

## Where the code does not do what it says

- Removing subscriptions keeps the entries it should drop (src/daemon/event.rs:74 and 89, against
  lines 86, 113 and 122). The predicate is a parameter `keep` of the message system; everything
  that does not depend on it is proved for every predicate. Both removals are proved for the
  documented one, and for the one that is written it is proved exactly when the effect is the
  same: only if there is no entry in any list concerned
  (`Removal.WrittenIsDocumentedExactlyWhen`). Sessions are stated for histories in which every
  entry of the client survives until the last message of its own job. With removal as
  documented that is every history in which the client stays connected
  (`Sessions.ConnectedIsUndisturbed`); as written, any other client that disconnects takes the
  entries away (`Removal.LeavingDropsTheOthers`).
- The state `Errored` is said to be final (src/daemon/mod.rs:52). The line loop overwrites it
  (`LogParser.ErroredIsNotFinal`); `LogParser.ErroredIsFinalExactlyWhen` says exactly when it
  stays.
- A subscription without server ids is said to cover all servers (src/ipc/mod.rs:35). It
  subscribes to nothing (src/bin/mcmand.rs:403); `Answers.CoversAllExactlyWhen` says exactly
  when a subscription covers all.
- A waiting client is subscribed only after the server was started
  (src/bin/mcmand.rs:236-249), so it can miss the first events
  (`Races.WaiterCanMissItsEvent`); all other commands subscribe first
  (`Answers.SubscribesFirstExactlyWhen`).
- The up-to-date test compares precedence and build one by one, so that a downgrade to a higher
  build number is carried out (`Updater.DowngradeIsCarriedOut`); the exact condition is
  `Updater.RefusedExactlyWhen`.
- A request for a named build of a version with a patch number asks the web interface for a
  name that contains the build (`Repository.PinnedRequestName`), and a listed pre-release is
  taken for the release (`Repository.ListedPreReleaseIsRenamed`).
- A client that updates an unknown unit is answered that it was not found, reads that answer as
  if it were `Ok` and then waits for ever (`Clients.UpdateClientFinishes`).
- Storing a unit replaces its server without looking at the process: updating a running server
  abandons it, and so does naming a server twice in the autostart list
  (`Abandonment.AccountedStep`, `Abandonment.AutostartSafeExactlyWhen`).
- At the end of the daemon, servers whose output has not been recognised yet, or that are
  stopping, are not waited for (`Shutdown.ShutdownStopsServers` covers them as servers that are
  left as they were found).

## Model

| member | source | states |
|---|---|---|
| `Runs.SenderLookupsSucceed` | src/bin/mcmand.rs:121-138 | In every reachable state both sender lookups succeed; the ids handed out are exactly the numbers below the count of clients, and every id in either queue, in a subscription list or at hand is one of them |
| `Runs.PipelineRefinement` | src/daemon/event.rs:38-80 | In every reachable state, deliveries made, `SendEvent`s on the daemon queue, the rest of the current dispatch and what replaying the manager's queue would emit are together the ideal delivery of the whole command history: every dispatched event once to each subscription live at that moment, oldest first |
| `Runs.StreamsHoldDeliveries` | src/bin/mcmand.rs:438-449 | A listening client's stream holds exactly the events of the deliveries made to it, in order; a client that stopped listening holds a prefix |
| `Runs.RequestResponsePairing` | src/bin/mcmand.rs:424-437 | A client's direct responses are the handshake and then the responses of its handled commands as they were computed, in the order in which it sent them; a listening client has all of them, and the k-th is of the kind of the k-th command sent |
| `Runs.AcknowledgedBeforeEvents` | src/bin/mcmand.rs:397-449 | However the event manager runs between the sends of a command, an event in a stream comes after the response to a command that subscribed the client to that type of event on that very unit |
| `Runs.CompletionImpliesRegistration` | src/bin/mcmand.rs:450-469 | Whoever has received a completion event finds the unit stored, now and after any further run, and no later answer says that it is unknown |
| `Runs.StoppedComesLast` | src/bin/mcmand.rs:519-528 | When the daemon has ended, exactly the commands that arrived before the `Stopped` event were answered, and every listening client has all its answers and `Stopped` as the last message |
| `Runs.InvStep` | src/bin/mcmand.rs:420-532 | All invariants together are kept by every step of every thread |
| `Drain.StepShrinks` | src/daemon/event.rs:38-81 | Every step other than a new client or a new command makes a nine-part lexicographic measure smaller, also those that raise the removal for a failed send |
| `Drain.QuiescentMeansEmpty` | src/bin/mcmand.rs:422-449 | The daemon's threads have nothing to do exactly when the process has ended or both queues, the pending commands and all threads are exhausted |
| `Drain.EveryScheduleDrains` | src/bin/mcmand.rs:422-449 | Once clients send nothing more, every schedule comes to a point where the daemon has ended or is idle |
| `Sessions.InstallEventsEnd` | src/bin/mcmand.rs:557-590 | An installation announces its steps in order; it ends with exactly one final event unless it panics, and with the completion exactly if it succeeded |
| `Sessions.UpdateEventsEnd` | src/bin/mcmand.rs:657-690 | The same for an update |
| `Sessions.InstallSession` | src/bin/mcmand.rs:290-326 | Once the daemon is idle, a client whose only command was an installation has `Ok` as its only direct response. If the unit was stored when the command was handled, the refusal is announced; otherwise a worker ran an installation of the request. The client's stream has all events of that very worker, or the refusal, in order, none about another unit, and nothing else if no other client had a job on the unit handled; provided no removal took its subscriptions away before its job's last message |
| `Sessions.UpdateSession` | src/bin/mcmand.rs:327-369 | The same for an update; it is answered as not found exactly if the unit was not stored when the command was handled, and otherwise the worker updates the unit as it was stored then |
| `Sessions.SeenWasStored` | src/bin/mcmand.rs:450-469 | What was stored before a client's commands were begun was stored when they were handled, and what was stored then still is |
| `Sessions.ConnectedIsUndisturbed` | src/daemon/event.rs:120-126 | With removal as documented, no removal ever takes the subscriptions of a client that listens and has not hung up |
| `Clients.InstallClientFinishes` | src/bin/mcman.rs:485-511 | The wait of that client ends with a final installation event of its unit if the worker its command launched has a final event, which it has unless it panics; if no other client had a job on the unit handled, it ends exactly then and with that event |
| `Clients.UpdateClientFinishes` | src/bin/mcman.rs:536-562 | The same for an updating client if the unit was stored when its command was handled; if not, it is answered so and waits for ever |
| `Clients.InstallAlwaysFinishes` | src/bin/mcman.rs:485-511 | With removal as documented: once clients send nothing more, every schedule ends the daemon or brings it to rest, and then the wait of an installing client that stayed connected goes by its own worker, whoever else left meanwhile |
| `Clients.UpdateAlwaysFinishes` | src/bin/mcman.rs:536-562 | The same for an updating client |
| `Clients.StopClientFinishes` | src/bin/mcman.rs:565-582 | A client that only asks for the end reads `Stopped` last, after `Ok` exactly if its command was taken in time, which it was if no one else asked |
| `Clients.StopAlwaysEnds` | src/bin/mcmand.rs:370-373 | Once a client has asked for the end and clients send nothing more, every schedule ends the daemon, and the client, if it still listens, has `Stopped` as its last message, after `Ok` if no one else asked |
| `Clients.Client.Install` | src/bin/mcman.rs:448-512 | Sends the request, reads one message and then events up to the first that ends an installation or up to another message |
| `Clients.Client.Update` | src/bin/mcman.rs:514-563 | The same for an update |
| `Clients.Client.StopDaemon` | src/bin/mcman.rs:565-582 | Reads two messages and reports whether they were `Ok` and `Stopped` |
| `Clients.OneAnswerFirst` | src/bin/mcmand.rs:424-437 | The stream of a client with one command is the handshake, one answer and then events only; no events if the command does not subscribe |
| `Waits.WaiterHears` | src/bin/mcmand.rs:397-414 | A client whose only command subscribes, such as a waiting start or stop, has been subscribed to exactly what it is to hear; the events in its stream are exactly those it is to hear that were dispatched since, in order and once each |
| `Waits.AwaitedIsSubscribed` | src/bin/mcmand.rs:231-350 | The events that the client of a command is to hear, told by their constructors, are those under the keys the command subscribes to |
| `Waits.EventTypeMeans` | src/ipc/mod.rs:205-219 | Events and types of events correspond one to one, by name |
| `Lookups.KnownStep` | src/bin/mcmand.rs:420-532 | Every step keeps every id in circulation within the senders |
| `Pipeline.FlowStep` | src/daemon/event.rs:38-80 | Every step keeps the pipeline equal to one replay of the history |
| `Replies.OrderStep` | src/bin/mcmand.rs:127-137 | Every step keeps a client's commands in order: answered, at hand, queued, pending |
| `Replies.PairedStep` | src/bin/mcmand.rs:424-449 | Every step keeps a client's stream equal to its responses and its deliveries |
| `Stopping.TakenStep` | src/bin/mcmand.rs:421-423 | Every step keeps the queue in order: the commands taken are those answered and the one at hand |
| `Stopping.LastStep` | src/bin/mcmand.rs:519-528 | Every step keeps `Stopped` out of all streams until the end, where it is last |
| `StopRequests.StopAskedStep` | src/bin/mcmand.rs:370-373 | Every step keeps this: a stop or `Stopped` event was queued only if a client's stop command was handled |
| `StopRequests.StopDueStep` | src/bin/mcmand.rs:470-472 | Every step keeps this: a handled stop command has its stop event queued, and a taken stop event has its `Stopped` |
| `Storing.StoredStep` | src/bin/mcmand.rs:450-469 | Every step keeps every unit as it was handed over last, or else as it was loaded |
| `Storing.StoredIsLast` | src/bin/mcmand.rs:450-469 | In every run, a unit is stored exactly if it was loaded or a worker handed it over, and is what was handed over last, or else what was loaded |
| `Acknowledgement.GrantedStep` | src/bin/mcmand.rs:397-414 | Every step keeps this, for each key: subscriptions to it and events under it are confined to clients with a command that subscribes to it answered or at hand |
| `Acknowledgement.AcknowledgedStep` | src/bin/mcmand.rs:424-449 | Every step keeps events behind the response to a command that subscribed to them |
| `Registration.RegisteredStep` | src/bin/mcmand.rs:568-581 | Every step keeps every completion event behind the storing of its unit |
| `Registration.JobRegistersFirst` | src/bin/mcmand.rs:567-590 | A job hands over its unit before it announces completion, and hands over only what can be stored |
| `Answers.ProperFits` | src/ipc/mod.rs:81-137 | Every command is answered with a response of its kind |
| `Answers.AnswerMeans` | src/bin/mcmand.rs:214-395 | A command is answered that its server is unknown exactly if it is; a start or stop is answered as sent exactly if its client does not wait |
| `Acknowledgement.ProgramMeans` | src/bin/mcmand.rs:214-395 | A command subscribes to exactly the keys it should, launches exactly one thread exactly when it should, refuses an installation exactly if the unit exists, and asks for the end exactly if it is a stop command; each of it once |
| `Answers.SubscribesFirstExactlyWhen` | src/bin/mcmand.rs:236-249 | What a command launches is launched after the client's subscriptions, except exactly when it starts a server that is down and waits for it |
| `Races.WaiterCanMissItsEvent` | src/bin/mcmand.rs:236-249 | A run from the start in which a listening client has started a server and waits for it, the event that the server is starting was dispatched, nothing is left to do, and the client has its answer and no event |
| `Races.WaiterCanHearItsEvent` | src/bin/mcmand.rs:236-249 | A run with the same client, command and log in which it has its answer and then the event |
| `Answers.CoversAllExactlyWhen` | src/ipc/mod.rs:33-41 | A subscription covers all servers exactly if there are none or its ids name all of them; without ids it does not |
| `Answers.StoredStaysKnown` | src/bin/mcmand.rs:450-469 | A stored unit stays stored in every run, and commands on it are never answered as unknown |
| `Answers.NotFoundStep` | src/bin/mcmand.rs:254-256 | Answers of not found are true while the command is handled; the stored keys only grow |
| `Answers.SeesRun` | src/bin/mcmand.rs:254-256 | Every run keeps this: what is stored before the commands of a client are begun is stored when they are handled |
| `Provenance.PlacedStep` | src/daemon/event.rs:142-152 | Every step keeps what each handler and each thread sent findable in the manager's history, in order, a thread's after its handler's subscriptions |
| `Provenance.KeysStep` | src/bin/mcmand.rs:397-414 | Every step keeps the subscriptions of a client equal to those its commands made |
| `Hearing.HearsEverything` | src/daemon/event.rs:41-65 | A client that subscribed to each key once and was not removed since is sent exactly the events dispatched under its keys after it subscribed |
| `Hearing.HearsLater` | src/daemon/event.rs:41-65 | A client that was undisturbed for the first part of a history is sent exactly what it should hear of that part, and then only later events under keys it had subscribed to |
| `Hearing.SentIsHeard` | src/daemon/event.rs:41-54 | What was sent after the matching subscriptions is heard, in order |
| `Hearing.HeardExactly` | src/daemon/event.rs:41-54 | What a client hears is exactly a given set of messages if they are all that is dispatched under its keys since it subscribed |
| `Sources.SourcedStep` | src/daemon/event.rs:144-152 | Every step keeps this: each dispatched event was sent by a thread or by a command |
| `Sources.FatheredStep` | src/bin/mcmand.rs:546-592 | Every step keeps this: a thread that announces events of a job was launched by a handled command for such a job on that unit |
| `Sources.GoneStep` | src/bin/mcmand.rs:431-433 | Every step keeps this: subscriptions are removed only for clients that hung up or no longer listen |
| `Sources.HangUpStep` | src/bin/mcmand.rs:127-137 | Every step keeps this: for each client that hung up, the removal of its subscriptions was queued |
| `Routing.RoutedStep` | src/daemon/basic_log.rs:90-136 | Every step keeps this: events are dispatched under the id of the unit they are about |
| `Routing.HeardOfUnit` | src/daemon/event.rs:41-54 | Who subscribed for one unit hears of that unit only |
| `EventManagers.EventManager.Run` | src/daemon/event.rs:34-84 | The receive loop leaves the lists and sends the messages that the history of commands calls for; started afresh, each event goes once to each live subscription, oldest first |
| `EventManagers.EventManager.Handle` | src/daemon/event.rs:40-80 | One command changes the lists and sends exactly as specified |
| `EventManagers.EventManager.Dispatch` | src/daemon/event.rs:41-54 | One message per entry of the list, in its order |
| `EventManagers.EventManager.RemoveAll` | src/daemon/event.rs:87-91 | Every list is filtered with the predicate as written |
| `Subscriptions.ListenersAreLive` | src/daemon/event.rs:55-80 | A list holds exactly the clients whose subscription was not removed since, oldest first |
| `Subscriptions.ReplayIsIdeal` | src/daemon/event.rs:41-54 | Running the manager over a history delivers every event once to each live subscription |
| `Subscriptions.ReplayAppend` | src/daemon/event.rs:38-81 | Running a history in two parts is running it in one |
| `Removal.RemovalKeeps` | src/daemon/event.rs:66-91 | A removal keeps, of every list, exactly the entries that the predicate keeps, in their order |
| `Removal.SilencedMeansAbsent` | src/daemon/event.rs:41-54 | A client is sent nothing until it subscribes again exactly if it is in no list |
| `Removal.DocumentedRemoval` | src/daemon/event.rs:122-126 | As documented: the client is sent nothing until it subscribes again, and the others' entries stay in their order |
| `Removal.DocumentedRemovalInHistory` | src/daemon/event.rs:113-126 | As documented: over a whole history the client hears what was dispatched before the removal and nothing since |
| `Removal.SilencedMeansUnlisted` | src/daemon/event.rs:41-54 | A client is sent no event under a key until it subscribes under it again exactly if it is not in that list |
| `Removal.DocumentedSilences` | src/daemon/event.rs:113-126 | As documented, either removal silences its client under every key it concerns, and no other client |
| `Removal.WrittenIsDocumentedExactlyWhen` | src/daemon/event.rs:66-91 | As written, either removal has the documented effect exactly if there is no entry in any list it concerns |
| `Removal.WrittenSilencesExactlyWhen` | src/daemon/event.rs:87-91 | As written, the client is silenced exactly if it had no entry, and every other client is silenced instead |
| `Removal.WrittenSilencesTheOthers` | src/daemon/event.rs:66-91 | As written, either removal silences its client under a key it concerns exactly if it was not in the list, and everyone else there always |
| `Removal.WrittenRemovalKeepsTheWrongOnes` | src/daemon/event.rs:66-91 | As written, either removal keeps, in the lists it concerns, exactly the entries of the named client |
| `Removal.LeavingDropsTheOthers` | src/daemon/event.rs:87-91 | Two clients listen and the first leaves: the second is dropped |
| `Channels.EventHandler.RaiseEvent` | src/daemon/event.rs:144-152 | An event is dispatched under the given id |
| `Lifecycle.CoherentStep` | src/bin/mcmand.rs:169-181 | Whatever happens to processes meanwhile, keys, server ids and unit ids agree, and a tracked process, its standard input and its state belong to one process of that unit |
| `Lifecycle.CoherentRun` | src/daemon/paper.rs:55-66 | The same over every run, so that a line always goes to a process of the unit it is meant for |
| `Lifecycle.StatusMeans` | src/bin/mcmand.rs:744-773 | A status is the one found exactly if the tracked child, its exit and the output recorded while it runs call for it, status by status |
| `Lifecycle.PrintShows` | src/daemon/basic_log.rs:86-136 | A line printed sets the recorded output to what it shows, if it shows anything |
| `Lifecycle.StartCmdStarts` | src/bin/mcmand.rs:233-238 | A start spawns a new process of the unit, which the server tracks from then on, exactly if the server tracks none, or one that ended well or has last reported that it stopped |
| `Lifecycle.StopCmdWrites` | src/bin/mcmand.rs:258-263 | A stop writes one line, stop, to the server's process and lets go of it, exactly if that process has not exited and has last reported that it started |
| `Lifecycle.WriteWrites` | src/daemon/paper.rs:63-67 | A line goes to the standard input of the process the server started last |
| `Lifecycle.AddUnitStores` | src/bin/mcmand.rs:450-469 | A unit of a known type gets a server without a process; nothing else changes |
| `Lifecycle.VisitWrites` | src/bin/mcmand.rs:484-510 | Coming to a server, the shutdown writes stop to its process exactly if that has not exited and has last reported that it started, and waits for it exactly if it has last reported that it is starting |
| `Lifecycle.StartSeenWrites` | src/bin/mcmand.rs:487-491 | A server that was waited for is told to stop exactly when it is no longer starting |
| `Abandonment.AccountedStep` | src/bin/mcmand.rs:737-790 | A step abandons a process exactly if it starts automatically, or stores a unit over, a server whose tracked process still runs, was not told to stop and has not said that it stopped |
| `Abandonment.NoAbandonedProcess` | src/bin/mcmand.rs:194-203 | In a run from the configuration on, no process is ever abandoned exactly if no step was of that kind |
| `Abandonment.AutostartSafeExactlyWhen` | src/bin/mcmand.rs:198-202 | The autostart never leads to an abandoned process exactly if its list names no known server twice |
| `Abandonment.DownIsReplaceable` | src/bin/mcmand.rs:236-238 | A server found down tracks nothing that would be abandoned by starting it |
| `Shutdown.ShutdownStopsServers` | src/bin/mcmand.rs:481-514 | When the shutdown is over it has come to every server: each whose process had not exited and had last reported that it was starting or had started when the shutdown came to it had that process told to stop, once, and reaped, and tracks none; nothing was written to the others |
| `Shutdown.NoStrategyNeeded` | src/bin/mcmand.rs:494-499 | The two statuses for which the shutdown has no strategy never occur |
| `Shutdown.HeldUpExactlyWhen` | src/bin/mcmand.rs:487-508 | The shutdown is held up exactly by a server that goes on starting or by a child that does not exit |
| `Shutdown.ShutdownAdvances` | src/bin/mcmand.rs:481-518 | Every step of the shutdown brings it nearer to its end, and nothing sets it back |
| `Servers.PaperServer.Spawn` | src/daemon/paper.rs:23-61 | A new process of the unit; its standard input is kept and its state handed out |
| `Servers.PaperServer.SendCommand` | src/daemon/paper.rs:63-67 | One line to the standard input that is kept, if there is one |
| `Servers.DaemonServer.Start` | src/bin/mcmand.rs:737-742 | A new process is tracked, whatever was tracked before |
| `Servers.DaemonServer.Status` | src/bin/mcmand.rs:744-773 | Down without a child, or if it ended well or has last reported that it stopped; an error with the code of a bad exit; and while the child runs, what its output says |
| `Servers.DaemonServer.Stop` | src/bin/mcmand.rs:783-790 | A tracked child is told to stop and handed over, and the server tracks none |
| `Servers.DaemonServer.Say` | src/bin/mcmand.rs:779-781 | One `say` line |
| `Servers.DaemonServer.HasStarted` | src/bin/mcmand.rs:792-798 | Returns at the first moment at which the server is not starting |
| `DaemonThread.Daemon.FromConfig` | src/bin/mcmand.rs:162-192 | Every unit found becomes a server without a process |
| `DaemonThread.Daemon.Autostart` | src/bin/mcmand.rs:194-203 | Starting the list is a run of automatic starts, one for each entry |
| `DaemonThread.Daemon.HandleCmd` | src/bin/mcmand.rs:214-395 | The sends and launches, in order, the response, the jobs launched, and the effect on processes and servers are those of the message system and of the lifecycle |
| `DaemonThread.CommandReaches` | src/bin/mcmand.rs:230-395 | What a command does to processes: a start and a stop exactly under their conditions, a message as a say line, a command line as it is, and others nothing |
| `DaemonThread.JobPerformsScript` | src/bin/mcmand.rs:546-691 | What the message system lets a launched worker do is exactly what the job launched for the command can do |
| `DaemonThread.Outbox.SubscribeEvent` | src/bin/mcmand.rs:397-414 | One subscription for each id, in order; none without ids |
| `DaemonThread.Daemon.InstallServer` | src/bin/mcmand.rs:546-592 | Refuses at once if the unit exists and launches a worker otherwise |
| `DaemonThread.Daemon.AddServerUnit` | src/bin/mcmand.rs:450-469 | A unit of a known type takes the place of the server with its id; others are ignored |
| `DaemonThread.Daemon.StopServers` | src/bin/mcmand.rs:481-514 | Visiting the servers in any order is a run of the lifecycle's shutdown |
| `DaemonThread.Daemon.List` | src/bin/mcmand.rs:216-229 | Exactly one entry for each server, with its own path, version and current status |
| `DaemonLoop.WorkedOffIsARun` | src/bin/mcmand.rs:424-437 | Working off a command takes one step for each send and one for the response |
| `DaemonLoop.CommandEffects` | src/bin/mcmand.rs:424-437 | The steps for a command add up to its sends and then its response |
| `DaemonLoop.Loop.Take` | src/bin/mcmand.rs:422-530 | For every message of the queue, what the daemon thread sends and stores is what the message system's steps for it send and store |
| `DaemonLoop.Loop.TakeStop` | src/bin/mcmand.rs:470-518 | The servers are stopped before `Stopped` is queued |
| `Senders.AcceptLoop.Run` | src/bin/mcmand.rs:79-148 | The n-th client admitted gets the n-th id, modulo 2^32; the senders are those of the ids in use |
| `Senders.AcceptLoop.Accept` | src/bin/mcmand.rs:99-141 | A reachable client gets the handshake; it is admitted exactly if it names no version or one that the daemon's own is not below |
| `Senders.IdsDistinctExactlyWhen` | src/bin/mcmand.rs:61-138 | Ids are pairwise distinct exactly up to 2^32 clients |
| `Senders.SenderMap.Reply` | src/bin/mcmand.rs:427-436 | A message to a client, or the removal of its subscriptions if it is gone |
| `Senders.SenderMap.Broadcast` | src/bin/mcmand.rs:519-525 | Every client that listens is told |
| `Jobs.RunInstallation` | src/bin/mcmand.rs:555-591 | The worker sends exactly what the installation's script says, the unit before the event |
| `Jobs.RunUpdate` | src/bin/mcmand.rs:655-691 | The same for an update |
| `Jobs.PerformInstallation` | src/bin/mcmand.rs:595-642 | Steps and outcome of an installation, with its refusals |
| `Jobs.PerformUpdate` | src/bin/mcmand.rs:694-726 | Steps and outcome of an update |
| `Workers.JobTells` | src/bin/mcmand.rs:557-590 | A job announces its steps under its unit, each with its text, and ends with the unit and the completion, with the failure and the text of its error, or, if it panics, with nothing |
| `Installer.PaperServerInstaller.InstallServer` | src/ipc/install.rs:92-195 | Steps announced and outcome, for every way it can go |
| `Installer.InstallProgress` | src/ipc/install.rs:104-171 | Steps are announced in order without gaps, all of them if it succeeds |
| `Installer.InstallOutcome` | src/ipc/install.rs:181-194 | A success was given a unit file path; its configuration has a build and the jar of its version |
| `Installer.WantedMeans` | src/ipc/install.rs:148-153 | The artifact found is the one the request stands for: that very build, else the newest build of the version, or of the greatest listed one |
| `Installer.InstallFinishes` | src/ipc/install.rs:92-195 | It finishes exactly if nothing fails, with the version of that artifact, its jar, and the name, path and id of the request |
| `Installer.InstallFailsWith` | src/bin/mcmand.rs:595-642 | It fails with exactly the error of the first thing that fails |
| `Installer.NothingToInstall` | src/ipc/install.rs:148-153 | Without such an artifact it never finishes |
| `Updater.PaperServerUpdater.UpdateServer` | src/ipc/update.rs:75-167 | Steps announced and outcome, for every way it can go |
| `Updater.TargetMeans` | src/ipc/update.rs:92-99 | The target is the artifact the request stands for: that very build, else the newest build of the version, or of the greatest listed one |
| `Updater.FinishedIsMeant` | src/ipc/update.rs:158-166 | A finished update has the version of that artifact, and its jar |
| `Updater.UpdateMeans` | src/ipc/update.rs:92-167 | It fetches that artifact exactly if it is above the installed version or has a higher build, and ends by what becomes of the download and the patch; without one it ends with the repository's error |
| `Updater.PerformMeans` | src/bin/mcmand.rs:694-726 | The worker ends as the update does, unless the unit file cannot be written |
| `Updater.RefusedExactlyWhen` | src/ipc/update.rs:101-113 | `AlreadyUpToDate` never meets a newer target, nor an installed version without a build; otherwise it meets all targets that are not newer, except an older version with a higher build |
| `Updater.SuccessMovesForwardExactlyWhen` | src/ipc/update.rs:101-113 | A success moves forward in precedence and then build exactly if the target does not precede the installed version, and always if that has no build; nothing but version and jar changes |
| `Updater.UpdateToLatestMovesForward` | src/ipc/update.rs:93-97 | Without a requested version, an installed version, with or without a build, that is at most a listed one only ever moves forward |
| `Updater.RepeatedUpdateIsRefused` | src/ipc/update.rs:92-113 | Repeating a successful update against an unchanged repository finds nothing to do, however the target is chosen |
| `Updater.DowngradeIsCarriedOut` | src/ipc/update.rs:101-113 | A request for 1.16.4, whose newest build is 2, is carried out on build 1 of 1.16.5 |
| `Updater.UpdateKeepsCoherence` | src/ipc/update.rs:158-166 | A success keeps the unit and keeps version, build and jar together |
| `Updater.DownloadKeepsCurrentJar` | src/ipc/update.rs:126-137 | An update that reaches its download never writes over the jar in use |
| `Updater.DownloadOverwritesExactlyWhen` | src/ipc/update.rs:126-137 | An update that reaches its download has another version as its target, and writes over the jar in use exactly if both versions are printed alike |
| `Builds.UpdatePanicsExactlyWhen` | src/ipc/update.rs:101-110 | The expectation of a build fails exactly if the installed version has none and does not precede the target |
| `Builds.InstallNeedsPath` | src/bin/mcmand.rs:573 | The unwrapped path is present whenever the installation succeeded |
| `Builds.StoredUnits` | src/bin/mcmand.rs:450-469 | Every unit ever stored is one that was loaded, unchanged, or has a build and the jar of its version |
| `Builds.StoredUnitPanicsExactlyWhen` | src/ipc/update.rs:101-110 | Apart from the download and the patch command, an update of a stored unit panics exactly if the unit is as it was loaded, without a build, and does not precede the target |
| `Builds.StoredJarIsSafe` | src/ipc/update.rs:126-165 | An update that reaches its download writes over the jar of a stored unit at most if the unit is as loaded with a jar of another name, or versions are involved whose jar names can clash |
| `Builds.StoredJarOverwrittenExactlyWhen` | src/ipc/update.rs:126-165 | The same for every unit stored in any run that has the jar of its version, which all have that are not as they were loaded |
| `Jars.JarNameInjective` | src/ipc/update.rs:129 | Equal jar names mean equal versions, without pre-releases or without hyphens |
| `Jars.SameJarExactlyWhen` | src/ipc/update.rs:129 | Two artifact versions share a jar name exactly if their numbers and the text printed behind them are the same |
| `Jars.JarNamesCanClash` | src/ipc/update.rs:129 | With both, two versions can share a jar name |
| `Jars.JarNameParts` | src/ipc/update.rs:129 | A jar name is the numbers and the hyphenated pre-release and build between `paper_` and `.jar` |
| `Repository.ListedNameRoundTrip` | src/repo/paper.rs:105-121 | A listed name comes back from parsing and printing exactly if it is canonical; the printed name is read as the same version |
| `Repository.ParseVersionMeans` | src/repo/paper.rs:105-113 | A listed name is read exactly if it spells one to three numbers with dots between them and nothing or a suffix behind; absent numbers are zero |
| `Repository.ListedPreReleaseIsRenamed` | src/repo/paper.rs:105-113 | A listed pre-release, whatever its well-formed suffix, loses it |
| `Repository.PinnedRequestName` | src/repo/paper.rs:52-61 | A request for a named build asks for the listed name exactly if the patch number is zero |
| `Repository.LatestArtifactIsGreatestBuild` | src/repo/paper.rs:86-97 | The newest artifact is the greatest listed build |
| `Repository.MaxVersionIsGreatest` | src/repo/mod.rs:75-78 | The latest version is listed and none precedes it strictly |
| `Repository.LatestVersionMeans` | src/repo/mod.rs:75-78 | The latest version is found exactly if all listed names can be read, and is the listed one that none is above |
| `Repository.LatestArtifactMeans` | src/repo/paper.rs:73-98 | The newest artifact is found exactly if the last of the builds with the greatest number has an application download, and it is that build with that download |
| `Repository.ArtifactMeans` | src/repo/paper.rs:48-71 | An artifact is found exactly if the named build, or else the newest one, has an application download, and it is that build with that download |
| `Repository.GetArtifact` | src/repo/paper.rs:48-71 | An artifact always has a build, and the requested one if there is one |
| `Repository.GetLatestArtifact` | src/repo/paper.rs:73-98 | The artifact differs from the request in its build alone, which is one number |
| `Repository.ListBuilds` | src/repo/mod.rs:69-72 | Every build listed has a build number and the requested version |
| `Repository.ListBuildsMeans` | src/repo/mod.rs:69-72 | The builds listed are exactly those of the repository, in its order |
| `Semver.PrecedenceOrder` | src/ipc/update.rs:101 | Precedence is a total order: reflexive, antisymmetric up to builds, transitive |
| `Semver.PrecedenceMeans` | src/ipc/update.rs:101 | Precedence is that of section 11 of Semantic Versioning 2.0.0, told by the numbers and the first differing identifier |
| `Semver.IdentifierMeans` | src/ipc/update.rs:102-110 | Identifiers compare by value if both are numeric, numeric ones below all others, and these by their characters |
| `LogParser.BasicLogServiceHandler.Run` | src/daemon/basic_log.rs:82-143 | One event for each line read that reports something, in order and for the unit: started, for instance, exactly if the line has both markers of a started server and does not begin like a starting one; the state is what the last such line shows |
| `LogParser.RecogniseMeans` | src/daemon/basic_log.rs:86-126 | A line is recognised exactly if it reports something, as what it reports, told by the texts it holds |
| `LogParser.BasicLogServiceHandler.Classify` | src/daemon/basic_log.rs:86-137 | The state found is the first in the order starting, started, stopping, stopped, errored whose marker the line carries; none is found exactly if it carries no marker |
| `LogParser.ContainsMeans` | src/daemon/basic_log.rs:99-126 | A part is contained exactly if it is found at some position |
| `LogParser.ErroredIsFinalExactlyWhen` | src/daemon/mod.rs:52 | The state stays errored through all further lines exactly if every one of them that is recognised reports the same error, or nothing more is read |
| `LogParser.ErroredIsNotFinal` | src/daemon/mod.rs:52 | Two lines after which an errored server is stopping |
| `Config.CreateServers` | src/config/mod.rs:73-132 | A unit is stored exactly if some file that was read describes it as a Paper server, and as the last such file does |
| `Config.ServersAreLastUsable` | src/config/mod.rs:93-107 | Exactly the ids of usable files, each with the contents of the last one |
| `Config.ServersAreCoherent` | src/daemon/mod.rs:106-124 | Every unit is stored under its own id and is of a known type |

## Left out

- Sockets, serialisation, mutexes and read-write locks: queues are sequences with an atomic append, and whether a send to a client succeeds is decided by the client being alive.
- Panics on calls to the operating system: a worker's download and patch command may panic, which ends the worker; spawning a process, writing to its standard input, opening files and reading unit files are taken to succeed.
- Runs.SenderLookupsSucceed: the message system accepts at most 2^32 clients, as the counter has no further ids; `Senders.AcceptLoop` models the counter with its wrap-around, and `Senders.IdsDistinctExactlyWhen` says that ids stop being distinct right there.
- Sessions.InstallSession: if another client also had a job on the unit handled, its events can be interleaved with the client's own; and nothing is claimed if a removal took the client's entries away before the last message of its own job, which as removal is written any other client that disconnects can cause.
- Clients.InstallClientFinishes: if another client's job on the unit interferes and the own worker panics, nothing is claimed of how the wait ends.
- Shutdown.ShutdownStopsServers: whether the shutdown ends depends on servers leaving the starting state and on children exiting; `Shutdown.HeldUpExactlyWhen` says that nothing else holds it up.
- DaemonLoop.Loop.TakeStop: in the message system, stopping the servers and queueing `Stopped` is one step, because the servers exchange no messages with the daemon meanwhile except through their log threads.
- DaemonThread.Daemon.List: the listing is a set, because the order of a hash map is unspecified.
- Repository.ListedNameRoundTrip: lenient parsing is modelled for one to three numbers with an optional suffix, which is what the repository lists; suffixes that lenient parsing may refuse, such as a lone hyphen, are accepted by the model (such a name does not come back from parsing and printing in either case); numbers are not limited to 64 bits.
- Updater.DownloadKeepsCurrentJar: not claimed for versions where a pre-release meets an identifier with a hyphen; `Jars.JarNamesCanClash` shows why, and `Updater.DownloadOverwritesExactlyWhen` has the exact condition.
- The text of errors (`{:?}`) is a parameter of an installation or update.
- What a log or worker thread will do is fixed in the step that launches it; as nothing else depends on it before it happens, this is no restriction.
- Repositories are read from one unchanging snapshot per installation or update.
- `Client::start` and `Client::stop` with their waiting sequences: the race between starting and subscribing and the missing subscription to failures leave nothing unconditional to prove.
- The other client commands, argument parsing, tables, spinners and the version pattern of `mcman`: no state.
- Memory, Java flags, log files, sleeping, systemd notifications and logging: no effect on what is proved.
- The record of changes in src/ipc/install/iops.rs: it has no roll-back.
- Waits.WaiterHears: not claimed for a subscription that names a server twice, whose client is sent its events twice.
- The transfer of a jar: the name of the download is part of an artifact, but what is transferred is not modelled.
