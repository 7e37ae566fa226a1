# A model of the greffer node agent

The greffer runs tenants' compose applications on a node and takes orders from a
manager. Around Docker, restic, the manager and the filesystem its own logic is a
set of small protocols, and this project models those, with the outside reduced to
steps that succeed, fail, raise or are cut off, and proves what they promise.

`dafny verify dfyconfig.toml` checks the whole project.

| module | what it models |
|---|---|
| `Values` | optional values, results, lookup with a default |
| `L4Ports` | the host-port allocator: published ports, pending reservations, the pick-and-reserve loop, the sticky file |
| `StickyPorts` | the file that remembers an instance's ports |
| `PortRuns` | whole runs of allocate, bind, stop, clock and agent restart over it |
| `InstanceLock` | the per-instance lock, the one-shot release, the handoff reservation |
| `LockProtocol`, `LockRefinement` | every interleaving of control operations, jobs and renewals over them; the operations of the module are its steps |
| `ComposeChildren` | the counter of compose children that renewal stands off from |
| `CertSchedule` | the settings validators, the backoff and the worker's ticks |
| `CertDebt` | the ledger of owed renewal reports, across crashes |
| `Mounts`, `Backup`, `Restore` | which volumes are mounted; cold and hot backup with boot recovery; restore in place |
| `Versions`, `ComposeText`, `RunUpdate` | the version order, the image lines of a compose file, the operator's update |
| `Engine`, `Recreate` | the socket-only updater with its gate and rollback; what a recreate carries over |
| `DeployLog`, `ContainerLog`, `InstanceFollow` | following the deploy log by offset, container output by timestamp, and all containers of an instance by shared positions |
| `Migrations` | the operations-migration runner and ledger, across crashes |
| `ComposeShape` | the compose normaliser |

Two shapes recur. A protocol among threads is a state machine: `Enabled` or
`Respects` says which step may happen, `Step` what it does, and a theorem is about
every run. An engine with many exits is a class whose methods append to a log of
effects; `Legal` says which effect is allowed in which World, a second predicate
(`Recoverable`, `Guarded`, `Safe`, `Justified`) what every World on the way must
keep, and a crash is any prefix of the log. What the outside answers comes in as a
parameter, so a theorem for all parameters is one for every behaviour of Docker,
restic, the manager or the disk that the parameter can express.

## Where the code falls short of its comments

Each of these is a theorem here: an input or a run for which the promise fails, and
the exact condition under which it holds.

- **Port exclusivity** (apps/utils/docker/l4_ports.py:85-119). Binding within the TTL
  is not enough: another instance's allocation prunes a live reservation whose port
  the daemon still shows from the owner's previous container
  (`PortRuns.ReservationSurvivesIff`), so a redeploy over a running container can
  lose its port to an instance that remembers it too
  (`PortRuns.RedeployBreaksExclusivity`). It is enough
  when an instance is started only while it publishes nothing
  (`PortRuns.ExclusiveWithinDeadline`). Sticky ports outside the configured range are
  not protected at all (`PortRuns.OutOfRangeMemoryCollides`).
- **The sticky file** (apps/utils/greffon/sticky_ports.py:54-61) drops every malformed
  entry rather than fail a start, except a number too large for a float
  (`StickyPorts.CrashesIff`).
- **The marker of a cold backup** (app/backup.py:881-936) guards a running instance
  at every step exactly when, once it was stopped, the marker had been written, the
  stop was seen to finish and the restart worked: after a stop timeout the marker
  goes although the stop is still under way (`Backup.BackupInstance`). A boot that
  finds the containers half stopped removes the marker and starts nothing
  (`Backup.BootBringsBackIff`).
- **Restore** (app/backup.py:1081-1121) stops an instance only when every container
  runs. A snapshot, or an overwrite, comes while containers of the instance run
  exactly when it was found partly running and the restore got as far as that step
  (`Restore.RestoreInstance`, over `Restore.AwakeIff`). `up -d` is not asked for its
  exit code, so a reported `already_running` is true exactly when the last restart
  did its work.
- **The rollback note of a restore** (app/backup.py:1103-1121, 1234-1236). The comment
  promises that a crash does not lose the id of the safety snapshot. The state file is
  written in place, and the second write empties it first: cut off or failing there, a
  restore that has overwritten its volumes leaves a file that no boot and no
  restore_status can read (`Restore.TornWriteLosesTheId`). The next boot names the
  snapshot exactly when the last write that was begun came to its end
  (`Restore.CrashIsReportedIff`, `Restore.SecondWriteDecides`).
- **"Rolled back"** (cli/greffer_cli/updater/engine.py:158-191) is true of every
  container exactly when no recreate raised after it had removed a container whose
  image was to change, because the container goes on the rollback list only when its
  recreate returns (`Engine.RolledBackIff`; where docker does not show a container's
  image, the rollback goes to the image its tag named). `Engine.RolledBackOnTheNewImage` is such a run: `docker
  start` took effect and reading its output raised. cli/greffer_cli/compose.py:32-50
  turns a missing binary and a timeout into a failed command; it does not catch the
  UnicodeDecodeError of output that is no UTF-8, nor an OSError of the fork.
  The tags come back with the containers where the commands took
  (`Engine.TagsComeBack`), but for the one container whose retag took and was reported
  failed, which is not on the list either: its tag goes on naming the rejected image.
- **Recreate fidelity** (cli/greffer_cli/updater/recreate.py:387-458). Labels with an
  equals sign in the key do not survive the command line
  (`Recreate.ArgumentsRoundTripIff`); an emptied field, an entrypoint of several words
  and a command equal to the image's beside an entrypoint override are lost
  (`Recreate.CommandRollbackIff`, `Recreate.ScalarOnImage`); an overlay entry is lost
  in the first update whose image bakes in the same value
  (`Recreate.OverlayAfterChain`).
- **The deploy log** (apps/utils/docker/instance_logs.py:187-190): a redeploy is
  noticed only while the new file is shorter than the offset
  (`DeployLog.ReplacedLogIsMissed`).
- **Container output** (apps/utils/docker/instance_logs.py:250-272) keeps one position a
  service. Following it is exact exactly while each shared position stands between what
  every container of that service had written and what it writes next
  (`InstanceFollow.FollowIsExactIff`): a container that lags behind its sibling loses
  lines silently (`InstanceFollow.SiblingAheadLoses`), one that is ahead repeats them
  (`InstanceFollow.SiblingBehindRepeats`). No key of an accepted compose file makes two
  containers of one service, but a scale by hand, `docker compose run` or an
  interrupted recreate does, and all of them are listed. With one container a service
  a single gap is left: a container with no line at one poll and more than a tail of
  them at the next loses the older ones without a flag
  (`InstanceFollow.DistinctServicesFollowIff`). And the cursor is turned into a second
  of local time: west of UTC new lines older than that second are not asked for
  (`ContainerLog.LateSinceIff`).
- **The migration ledger** (apps/utils/ops_migrations/ledger.py:96-117): the comment
  says an unreadable ledger is not written; the code replaces it at the first write
  (`Migrations.UnreadableLedgerIsReplaced`, `Migrations.LedgerKeepsIff`). One that is
  no UTF-8, or has an entry without an id, is not replaced and lets nothing run
  (`Migrations.BrokenLedgerRunsNothing`).
- **Advisory migrations** (apps/utils/ops_migrations/runner.py:174-185) are not to stop a
  boot; an infinite error count does, by an OverflowError that the guard around the
  conversion does not name (`Migrations.AdvisoryRaisesIff`,
  `Migrations.AdvisoryBootIff`).
- **Four renewal attempts before expiry** (app/settings.py:156-208) hold for the ticks
  whose pass gets to the instance (`CertSchedule.WorkerDeliversFourAttempts`); nothing
  bounds how far apart those are (`CertSchedule.UnreachedIsNeverAttempted`).
- **The compose normaliser** (apps/utils/greffon/compose_shape.py:396-403) is
  idempotent exactly for mount modes none, ro and rw
  (`ComposeShape.NormalizingTwiceIff`); it lets errors through that it does not name
  for long entries whose source, target or protocol has an unexpected type, for ports
  of more than 4300 digits or of digits such as superscripts
  (`ComposeShape.ZerosAndSuperscriptsEscape`), and for refusals that show a number too
  long to print (`ComposeShape.RefusalThatCannotBePrinted`), and for nothing else
  (`ComposeShape.ComposeUncaughtIff` and the lemmas on single entries); and a
  port with a leading zero counts as another port
  (`ComposeShape.LeadingZeroIsAnotherTarget`), so the targets of an accepted service
  are distinct ports exactly when no two differ only in leading zeros
  (`ComposeShape.AcceptedPortsIff`).
- **The operator's update** (cli/greffer_cli/update.py:700-761). Without a passed gate
  the file ends with the references it had exactly when some restoring write went
  through: the rollback's, a SIGTERM handler's or the last one (`RunUpdate.RunUpdate`).
  That is so whenever the run ends with an exit code. A disk that the pull has filled,
  or a second Ctrl-C during the last write, leaves the target in the file
  (`RunUpdate.FullDiskKeepsTarget`), and so does a kill
  (`RunUpdate.KilledKeepsTarget`). A restored file is the old one to the letter exactly
  when its image lines are bare and agree per repository
  (`RunUpdate.FailureIsInvisibleIff`).

## What is assumed

- Ports: the listing of the daemon is complete; an agent restart ends the starts in
  flight; `PortRuns.ExclusiveFromStart` starts from publishers that are exclusive and
  sticky ports in range.
- Certificate schedule: passes take no time and are not forced. Which passes get to an
  instance, and how long the worker waits to be registered, are parameters.
- Owed reports: reads and writes of the ledger succeed; a mint answer other than 200
  means nothing was issued; an answer that clears the debt leaves the manager nothing
  to reconcile; an instance that arrives has no unresolved mint; no mint is issued
  after a later report already cleared the debt.
- Restore and backup: no compose child of the instance is still at work when the job
  starts (the lock does not wait for one); two status reads in a row agree; docker's listing of a database
  service's volumes, where it can be read, is right; nothing but the modelled steps
  changes a volume while an instance is down; a restart over an unfinished stop
  settles nothing. A state file that was emptied, or written in part, does not parse.
  The marker of a backup counts by being there, empty or not.
- Updater: docker does not report work it has not done, but a failed or raised
  command may have done it; container names and repositories in the stack are
  distinct; `--entrypoint` clears the image's own command, as `docker create` does.
- Container output: the stamps of one container strictly increase; of several containers
  (`ContainerLog.InstanceLogs`, `InstanceFollow`): the process runs in UTC, as its image
  does.

## Model

| member | source | states |
|---|---|---|
| `L4Ports.PublishedL4Ports` | apps/utils/docker/l4_ports.py:162-208 | returns exactly the (protocol, port) pairs in the range that some container outside the instance's own project publishes; a listing entry without a type is tcp, case is ignored |
| `L4Ports.PruneProtocol` | apps/utils/docker/l4_ports.py:95-112 | of one protocol's reservations keeps exactly the unexpired ones whose port the daemon does not show, and of those names the ones others own |
| `L4Ports.Allocator.PendingAndPrune` | apps/utils/docker/l4_ports.py:85-112 | afterwards the table, as a map over (protocol, port), is the old one without its expired and its daemon-visible entries; the result is exactly what of it other instances own |
| `L4Ports.Allocator.MarkPending` | apps/utils/docker/l4_ports.py:115-119 | one slot is reserved for the instance until now + TTL and no other entry changes |
| `L4Ports.LowestFreePort` | apps/utils/docker/l4_ports.py:211-216 | the least port of the range that is not taken, or none exactly when all are taken |
| `L4Ports.PickOne` | apps/utils/greffon/repository.py:137-161 | the decision for one port against the union of the daemon's, the others' and this call's own ports |
| `L4Ports.Allocator.ReserveOne` | apps/utils/greffon/repository.py:137-163 | one turn of the loop: a refusal changes nothing, a grant adds exactly its slot to the table and to the batch |
| `L4Ports.Allocator.ReserveAll` | apps/utils/greffon/repository.py:133-164 | the whole loop: ports, new sticky map and table are those of the specification Pick, also when it stops at an error part-way |
| `L4Ports.Allocator.Allocate` | apps/utils/greffon/repository.py:115-166 | enumerate, prune, pick, reserve under the lock: the table, the sticky file and the answer are those of the specification; an error, of whatever kind, leaves every sticky file as it was; a success leaves every other one as it was and this one with each requested name on its granted port and nothing else; a sticky file that cannot be written fails the start with its ports reserved |
| `L4Ports.NewStickyIs` | apps/utils/greffon/repository.py:158-166 | what a success remembers: exactly the names asked for, each on the port granted last for it |
| `L4Ports.ProtocolIs` | apps/utils/docker/l4_ports.py:199-207 | a published port without a type counts as tcp, and the case of a type does not matter |
| `L4Ports.PicksAreFresh` | apps/utils/greffon/repository.py:143-163 | a granted slot is neither visible, nor reserved by another instance, nor granted earlier in the call: ports of one protocol are pairwise distinct |
| `L4Ports.PicksAreSticky` | apps/utils/greffon/repository.py:145-157 | the remembered port comes back whenever it is not taken; otherwise the port is the lowest untaken one; a proxy same_port endpoint is never moved |
| `L4Ports.FailureIsJustified` | apps/utils/greffon/repository.py:147-157 | a same_port conflict only for a taken remembered port of a proxy endpoint; exhaustion only when every port of the range is taken |
| `L4Ports.PicksInRange` | apps/utils/greffon/repository.py:145-157 | with remembered ports in range every granted port is in range |
| `L4Ports.PickedByChoose` | apps/utils/greffon/repository.py:137-164 | each granted port is the choice made against exactly what was taken before it in the same call |
| `L4Ports.RefusedByChoose` | apps/utils/greffon/repository.py:147-157 | the error of a failed call is the refusal of its first unserved request |
| `L4Ports.PickStopsAt` | apps/utils/greffon/repository.py:147-157 | nothing is served after the first refusal |
| `L4Ports.MarkAllMarks` | apps/utils/docker/l4_ports.py:115-119 | reserving a call's ports overwrites exactly the granted slots and keeps every other entry |
| `L4Ports.RestartKeepsPorts` | apps/utils/greffon/repository.py:115-166 | asking again with what the last success remembered gives the very same ports, as long as nobody else has taken one meanwhile |
| `StickyPorts.Sidecar.Load` | apps/utils/greffon/sticky_ports.py:43-61 | what can be read of the file; a missing, unreadable or foreign one is empty |
| `StickyPorts.Sidecar.Save` | apps/utils/greffon/sticky_ports.py:64-99 | through, the file reads back as the mapping; failed or killed, it is the old one, and only a kill leaves a temporary file |
| `StickyPorts.DamageIsLocal` | apps/utils/greffon/sticky_ports.py:55-61 | an entry is remembered exactly if its own value is an integer or reads as one, and as that integer: a damaged file costs only its damaged entries |
| `StickyPorts.CrashesIff` | apps/utils/greffon/sticky_ports.py:54-61 | reading raises exactly for a file with an infinite number, whose OverflowError is not among the errors caught |
| `PortRuns.ListingShowsVisible` | apps/utils/docker/l4_ports.py:162-208 | the enumeration of a daemon that inside the range lists exactly the running publishers, whatever else it shows outside it, is the visibility relation the runs are stated over; a container outside every project counts for nobody in particular |
| `PortRuns.GrantedAreFree` | apps/utils/greffon/repository.py:126-163 | in a state where exclusivity holds, a granted slot is in range and nobody else holds it by container or by reservation |
| `PortRuns.TableAfter` | apps/utils/docker/l4_ports.py:85-119 | the reservation table after an allocation, slot by slot: what is new, what survives, what is pruned |
| `PortRuns.ReservationSurvivesIff` | apps/utils/docker/l4_ports.py:98-106 | another instance's allocation drops a live reservation exactly when its owner already publishes that port |
| `PortRuns.HoldsAfterAllocate` | apps/utils/greffon/repository.py:126-166 | after an allocation whoever holds a slot held it before or was granted it |
| `PortRuns.AllocateKeepsInv` | apps/utils/greffon/repository.py:126-166 | an allocation, whether it succeeds or fails part-way, keeps exclusivity and everything in range |
| `PortRuns.AllocateRemembers` | apps/utils/greffon/repository.py:126-166 | of a step of a run: a failed allocation leaves every sticky file as it was, a successful one changes its own to the ports it was granted |
| `PortRuns.StepKeepsInv` | apps/utils/greffon/repository.py:115-166 | each step (clock, allocation, bind, stop, agent restart) keeps the invariant |
| `PortRuns.ExclusiveWhileReserved` | apps/utils/greffon/repository.py:115-166 | over every run whose containers bind while their reservation is in the table, two instances never hold the same (protocol, port) |
| `PortRuns.ExclusiveWithinDeadline` | apps/utils/greffon/repository.py:115-166 | the same from binding within the TTL of the grant, in runs that start an instance only when it publishes nothing; such a run is one of the former kind |
| `PortRuns.ExclusiveFromStart` | apps/utils/greffon/repository.py:115-166 | exclusivity at the end of every such run from a freshly started agent with exclusive publishers and sticky ports in range |
| `PortRuns.StepKeepsDue` | apps/utils/docker/l4_ports.py:85-119 | a granted start that can still bind in time keeps its reservation through every step |
| `PortRuns.SoleRequestIsSticky` | apps/utils/greffon/repository.py:145-146 | a single request whose remembered port nobody else has gets it, with its reservation and its sticky entry |
| `PortRuns.RedeployBreaksExclusivity` | apps/utils/docker/l4_ports.py:98-106 | the discipline is needed: in every state of the invariant where the sidecar files of a running publisher and of a third instance both remember its port, there is a five-step run, redeploying over that container, after which both hold the port although the bind came within the TTL |
| `PortRuns.OutOfRangeMemoryCollides` | apps/utils/docker/l4_ports.py:190-207 | in-range memory is needed: a remembered port outside the range is handed out although another instance publishes it |
| `InstanceLock.Locks.TryAcquire` | app/backup.py:60-68 | succeeds exactly when the lock was free, and it is held afterwards |
| `InstanceLock.Locks.Release` | app/backup.py:171-191 | frees that lock and no other; asks that it is locked |
| `InstanceLock.Locks.ReserveHandoff` | app/backup.py:103-106 | sets this instance's deadline to now + 90 s and no other |
| `InstanceLock.Locks.PendingLocked` | app/backup.py:109-125 | true exactly before the deadline; an expired entry is dropped |
| `InstanceLock.Locks.AcquireUnlessHandoff` | app/backup.py:134-162 | takes the lock exactly when no live reservation stands and it is free; otherwise names which of the two refused and leaves the lock as it was |
| `InstanceLock.Locks.ClearHandoff` | app/backup.py:165-168 | drops this instance's reservation and no other |
| `InstanceLock.OneShot.Release` | app/backup.py:171-191 | frees the lock the first time and does nothing ever after |
| `InstanceLock.SpawnJob` | app/backup.py:1290-1355 | a job exists exactly if the lock was free and its thread started; in every other case the lock is as before |
| `InstanceLock.LockedJob` | app/backup.py:1358-1366 | after the job and its finally the lock is held exactly if another owner took it after an early release |
| `InstanceLock.SerializeInstanceOp` | app/routers/controller.py:186-224 | busy exactly if the lock was held; otherwise the reservation is consumed and the lock is free again |
| `LockProtocol.ReleaseFreesOwnLockOnly` | app/backup.py:171-191 | in every reachable state a release whose flag is down changes nothing, and any other frees a lock that is locked and that this agent alone is inside |
| `LockProtocol.StepKeepsInv` | app/backup.py:60-191 | every atomic step of every agent keeps: held flag, lock and critical section agree, one agent a section |
| `LockProtocol.MutualExclusion` | app/backup.py:1290-1366 | in every interleaving at most one agent is inside an instance's section, the lock is locked exactly while one is, and each acquisition is freed once: not before its agent is out, and once when it is |
| `LockProtocol.NothingStranded` | app/backup.py:1308-1324 | when all agents are done, however they ended, every lock is free |
| `LockProtocol.ReserveStands` | app/backup.py:1250-1262 | a reservation is made while no control operation is between acquiring and consuming |
| `LockProtocol.StepKeepsStanding` | app/backup.py:109-168 | a standing reservation outlives every step but a control acquisition of that instance, and none of those steps is a renewal of it |
| `LockProtocol.NoRenewalWhileStanding` | app/backup.py:134-162 | over any run before the deadline without a control acquisition no renewal of that instance acquires, and the reservation still stands |
| `LockProtocol.HandoffKeepsRenewalOut` | app/backup.py:1233-1262 | after a restore has reserved, in every continuation of every run, a renewal acquires that instance only after a start, stop or decommission has, or 90 s have passed |
| `LockProtocol.ExpiredHandoffAdmitsRenewal` | app/backup.py:134-162 | an unconsumed reservation cannot mute renewal past its deadline |
| `LockRefinement.Perform` | app/backup.py:60-191 | each operation of the lock module, on any program state that follows a reachable protocol state, is the protocol step of that name: an acquire succeeds exactly when the step is enabled, and afterwards the two still agree |
| `LockRefinement.RunProgram` | app/backup.py:60-191 | any sequence of operations on a new module leaves the locks and the reservations of a run of the protocol, so what is proved of every run holds of the module |
| `LockRefinement.TakenIsRun` | app/backup.py:60-191 | the operations that were not refused form a run of the protocol |
| `LockRefinement.SweepingIsInvisible` | app/backup.py:109-125 | dropping an expired reservation, as a refused renewal does, is seen by no later look at it |
| `ComposeChildren.Inflight.Track` | app/routers/controller.py:127-183 | the counter of each instance stays the number of its live children; a waiter that cannot start takes back its own mark only |
| `ComposeChildren.Inflight.ReleaseChild` | app/routers/controller.py:112-118 | one child less, and no counter kept at zero |
| `ComposeChildren.Inflight.ComposeInflight` | app/routers/controller.py:121-124 | true exactly while some child of the instance lives |
| `CertSchedule.Backoffs.InBackoff` | app/workers/cert_renewal.py:730-732 | true exactly before the deadline of the instance's entry |
| `CertSchedule.Backoffs.NoteFailure` | app/workers/cert_renewal.py:735-748 | one more failure in a row, the deadline moved by the delay after that many, no other entry changed |
| `CertSchedule.DelayDoubles` | app/workers/cert_renewal.py:735-748 | the backoff is exponential: the first delay is the interval and each further one twice the one before, none longer than a day, for every interval and count of failures |
| `CertSchedule.DefaultWaits` | app/settings.py:264-270 | at the default interval the waits are six hours, twelve, and then a day each |
| `CertSchedule.DefaultsAreValid` | app/settings.py:156-270 | the shipped settings are accepted, and the bounds on either side of them are where the validators put them |
| `CertSchedule.Backoffs.ClearBackoff` | app/workers/cert_renewal.py:751-752 | drops this entry and no other |
| `CertSchedule.Backoffs.FollowTicks` | app/workers/cert_renewal.py:900-904 | the attempts of an instance whose every attempt fails, over any ticks, are those of the specification |
| `CertSchedule.AfterTickIs` | app/workers/cert_renewal.py:900-945 | a tick before the deadline changes nothing, one that finds the certificate outside its window forgets every failure, any other is one failure more |
| `CertSchedule.AttemptsInTime` | app/settings.py:156-208 | the k-th attempt comes no later than k intervals and k-1 caps after the instance may first be attempted, for any tick sequence with gaps at most the interval |
| `CertSchedule.FourAttemptsBeforeExpiry` | app/settings.py:156-208 | for every interval and window the validators accept, an instance that fails at every attempt and enters its window without a backoff is attempted four times strictly before expiry |
| `CertSchedule.IntervalTermIsNeeded` | app/settings.py:183-186 | the 5-day window at a 20-hour interval: four caps would accept it, and its fourth attempt falls on expiry itself |
| `CertSchedule.AttemptsSpanTheirDelays` | app/workers/cert_renewal.py:735-748 | n+1 attempts of one failing instance span at least n waits that start at the interval and double up to a day: issuance is bounded, whatever the ticks |
| `CertSchedule.DelaysAreDoubling` | app/workers/cert_renewal.py:735-748 | the delays after consecutive failures sum to waits of which each is twice the one before, up to a day |
| `CertSchedule.RunWorker` | app/workers/cert_renewal.py:1206-1320 | each tick of the worker comes the carried delay after the one before, plus however long it waited to be registered: the interval, but two minutes after a pass that deferred an instance, found another pass at work or lost its authorization, and an hour after one that was rate limited or disabled, if those are shorter; the first after the capped startup jitter |
| `CertSchedule.EveryPassReaches` | app/workers/cert_renewal.py:1206-1320 | a worker that stays registered and whose every pass gets to the instance ticks for it at most an interval apart, whatever else the passes answer |
| `CertSchedule.AttemptsAreTicks` | app/workers/cert_renewal.py:900-904 | an attempt is made at a tick that got to the instance, with its certificate unreadable or within the window, and at no other time |
| `CertSchedule.FirstDueTickAttempts` | app/workers/cert_renewal.py:900-945 | the first tick in the window that finds no backoff is an attempt |
| `CertSchedule.UnreachedIsNeverAttempted` | app/workers/cert_renewal.py:1062-1064 | passes that each find another one running attempt the instance at no tick, however many there are |
| `CertSchedule.WorkerDeliversFourAttempts` | app/workers/cert_renewal.py:1206-1320 | worker, backoff table and validator together: an instance is attempted only at ticks whose pass got to it, and four times before expiry whenever those ticks come at most an interval apart from the opening of its window to its expiry; in particular for a worker that stays registered and whose every pass gets to it |
| `CertDebt.MintIsSafeIff` | app/workers/cert_renewal.py:954-995 | a mint is covered exactly when the debt is on disk by then or the instance has left the node |
| `CertDebt.DecidedIff` | app/workers/cert_renewal.py:566-625 | the debt goes exactly when the first answer that is an answer is a confirmation, a rejection or another terminal status: not on 401 or 403, and not on the 404 of a disabled manager |
| `CertDebt.Renewal.LoadUnconfirmed` | app/workers/cert_renewal.py:125-144 | after loading memory and file agree |
| `CertDebt.Renewal.SaveUnconfirmed` | app/workers/cert_renewal.py:152-186 | the file becomes the memory, in one step |
| `CertDebt.Renewal.ClearDebt` | app/workers/cert_renewal.py:147-149 | drops one debt from memory and file, and writes only if it was there |
| `CertDebt.Renewal.SendReport` | app/workers/cert_renewal.py:534-640 | the debt is on disk before the first of at most three requests, and goes exactly when the first answer that is an answer is a confirmation, a rejection or another terminal status; kept, it names the certificate served; no other debt changes; the requests and writes are those of the answers, in order |
| `CertDebt.Renewal.RenewLocked` | app/workers/cert_renewal.py:954-1043 | the mint request goes out while the file names the instance; a refusal leaves the ledger as it was, a lost answer leaves the debt it found or the one filed for this mint, an issued certificate leaves what its report decides; no other debt changes |
| `CertDebt.Renewal.GiveUp` | app/workers/cert_renewal.py:954-995 | a definitive refusal takes back the debt filed for it and nothing else |
| `CertDebt.Renewal.RenewOne` | app/workers/cert_renewal.py:755-859 | debt path and renewal together keep the ledger safe at every step and leave the specified debts and effects: nothing for an instance that is neither owing nor admitted, what the report of the debt decides for one that only owes |
| `CertDebt.Renewal.RenewAll` | app/workers/cert_renewal.py:1072-1203 | a pass ends at the first answer that speaks for the whole node, and drops debts only of instances that have left; its effects are those of its visits |
| `CertDebt.PassTurnsTo` | app/workers/cert_renewal.py:1072-1203 | a pass reports only for running instances of its status sweep, and mints only for those that nothing stopped before the mint |
| `CertDebt.NodeRefusalEndsPass` | app/workers/cert_renewal.py:1072-1203 | whatever would have come after an answer that speaks for the whole node makes no difference to effects or ledger |
| `CertDebt.Renewal.RunPass` | app/workers/cert_renewal.py:1046-1074 | one pass from any safe World: safe at every step, memory and file equal to the folded ledger at its end, its effects those specified |
| `CertDebt.RunLife` | app/workers/cert_renewal.py:1046-1203 | one process: safe at every step, its effects are those of its passes in order, and the file it leaves is the ledger its last pass computes |
| `CertDebt.RunLives` | app/workers/cert_renewal.py:125-168 | over any number of processes, each with the effects its passes specify and killed at any step of any of them: at every step the file names every instance on the node whose mint the manager, by its own account of what settles one, may still hold, and every mint and report request found its debt on file |
| `Mounts.DataVolumes` | app/backup.py:311-318 | the volumes of the instance, by their prefix, but for its nginx volume, by its suffix |
| `Mounts.BackupMounts` | app/backup.py:597-605 | all of them, and the L4 port file when there is one |
| `Mounts.HotBackupMounts` | app/backup.py:608-646 | refused exactly when some volume is unclassified; otherwise exactly the data volumes, with the L4 file only along with some |
| `Restore.Job.TakeSafety` | app/backup.py:1081-1121 | reaches the overwrite exactly if stop, repository and safety snapshot went well; then the snapshot holds the volumes as found and the note of it was written; before that no volume and no snapshot has changed; the code of any other end |
| `Restore.Job.WriteState` | app/backup.py:812-817 | the state file is written in place: not opened, it is as before; opened, it is emptied first, and holds the body only if the write comes to its end |
| `Restore.Job.DataMounts` | app/backup.py:1125-1143 | goes on exactly if, with database dumps, every volume is classified, docker could be asked, and no volume docker shows behind a database is in the set; then the set is the ordered one |
| `Restore.Job.OverwriteVolumes` | app/backup.py:1122-1160 | each targeted volume holds what the data snapshot holds of it and nothing else, every other volume is untouched; a failed overwrite is reported with the safety id |
| `Restore.Job.LoadDatabase` | app/backup.py:1167-1184 | a dump is replayed exactly into a healthy service with a hook, through a pipe of which both ends succeed |
| `Restore.RestoreDatabase` | app/backup.py:467-520 | a dump counts as loaded exactly if nothing broke or timed out and both ends of the pipe succeeded; a producer's failure is told from a consumer's, and comes first |
| `Restore.Job.LoadDatabases` | app/backup.py:1161-1194 | succeeds exactly if every service is ready, has a hook and takes its dump, and no volume outside the databases' own has changed |
| `Restore.Job.Attempt` | app/backup.py:1081-1203 | the try block proceeds to its end exactly under the stated success condition, with volumes and databases as ordered and the instance in the stated run state |
| `Restore.Job.Prune` | app/backup.py:536-567 | afterwards the newest safety snapshots are left, as many as the setting says and at least one; all of them if the forget did not run |
| `Restore.DeliveredMeans` | app/backup.py:1122-1194 | what a success leaves in each volume: without dumps all of them come from the data snapshot, the manifest's if it names one; with dumps those of class data do, and every other one outside the databases holds what it held |
| `Restore.Job.Classify` | app/backup.py:1204-1209 | a classified error gives its code; every exception attaches the safety id |
| `Restore.Job.Undo` | app/backup.py:1210-1247 | a failure before that note restarts what it stopped, one after the databases were started stops and waits, any other leaves the containers alone |
| `Restore.Job.Conclude` | app/backup.py:1248-1264 | the write of the state file, with what it leaves of the old one when it fails, reservation exactly when a start will follow, release, one callback, in that order |
| `Restore.Job.Tell` | app/backup.py:1260-1264 | the lock is dropped before the one callback; the state file goes only once it was acknowledged |
| `Restore.DatabasesAreSpared` | app/backup.py:1131-1143 | in every proper history a volume behind a database holds what it held at entry until the database services are started |
| `Restore.NothingAfterRelease` | app/backup.py:1223-1264 | in every proper history nothing touches containers, volumes or the reservation after the release, the callback comes after it and once, and the reservation stands exactly for a result that a start follows |
| `Restore.ProperAtEveryStep` | app/backup.py:1066-1264 | what a history promises holds at each of its steps: wherever it is cut, the volumes are as found or the newest safety snapshot holds them so, and no body written names another |
| `Restore.AwakeIff` | app/backup.py:1081-1160 | the two flags of a World say exactly that some snapshot, or some overwrite, of the history came while containers of the instance ran |
| `Restore.RepostOnBoot` | app/backup.py:861-867 | a boot posts a state file it can read as it is, and removes it exactly once it is acknowledged; an emptied one is passed over |
| `Restore.HoldsIff` | app/backup.py:812-817 | in every proper history the state file can be read exactly if the last write that was begun came to its end and it was not removed since |
| `Restore.CrashIsReportedIff` | app/backup.py:1103-1121 | killed at any step after a volume changed: the newest safety snapshot holds the volumes as found, and the next boot posts a body that names it exactly if the last write of the state file that was begun came to its end |
| `Restore.SecondWriteDecides` | app/backup.py:1234-1264 | with the rollback note stored: at every such step before the file is removed the next boot names the snapshot, unless the write of the result has emptied the file and not come to its end |
| `Restore.TornWriteLosesTheId` | app/backup.py:1234-1236 | such a run for every stopped instance and every overwrite that changes something: note stored, volumes overwritten, the file emptied for the result, and nothing left that names the snapshot |
| `Restore.RestoreInstance` | app/backup.py:1054-1264 | for all inputs and outcomes: every effect is allowed when it comes (overwrite only after the safety snapshot and the write of its note) and every World on the way is recoverable; success exactly under the stated condition, with the ordered contents; otherwise nothing changed or the body names the safety snapshot; the final run state, from every start; the writes of the state file, step by step; a snapshot or an overwrite met running containers exactly if the instance was found partly running and the restore got that far; the code a failure carries, by the first thing that went wrong (FailureCode); and the safety snapshots left behind: none taken, one more, or after a success the newest up to the setting and at least one |
| `Backup.ReconcileOnBoot` | app/backup.py:850-860 | a boot restarts an instance with a marker whose containers have stopped, then removes the marker |
| `Backup.BootBringsBackIff` | app/backup.py:850-857 | after a completed boot the instance runs exactly if it ran, or had a marker and had wholly stopped: containers found half stopped lose the marker and are not started |
| `Backup.CrashIsRepaired` | app/backup.py:840-860 | from a guarded World any number of boots killed at any step and then a completed one bring the instance back |
| `Backup.CrashDuringBackup` | app/backup.py:881-936 | a guarded cold backup killed at any step is repaired by such boots |
| `Backup.DumpHooks` | app/backup.py:653-677 | the services of the running containers with a non-empty hook, in order; none at all if one cannot be split |
| `Backup.OneHookIff` | app/backup.py:653-677 | there is exactly one exactly if one running container has a hook that is not empty and no other has, and it goes by its service, or by its name without one |
| `Backup.NoHooksIff` | app/backup.py:653-677 | there is none exactly if no running container has a hook that is not empty |
| `Backup.DumpAndBackup` | app/backup.py:394-464 | succeeds exactly if nothing broke or timed out, the producer exited 0 and the consumer stored something; the producer's failure is reported before the consumer's, and that before an empty dump |
| `Backup.Job.Cold` | app/backup.py:894-926 | snapshots only a stopped instance, succeeds exactly if each step did, and owes a restart exactly once the stop was issued |
| `Backup.Job.Hot` | app/backup.py:680-709 | checks everything before the first snapshot and never touches the containers: refused, with its code, for an unclassified volume, no data volume, a second database, and a database without exactly one hook; succeeds exactly under the stated condition |
| `Backup.HotMeans` | app/backup.py:680-736 | what a hot success stored, with the classes written out: the data volumes in one snapshot, and with a database volume exactly one, dumped by the one hook and named in the manifest; without one no dump |
| `Backup.RefusesIs` | app/backup.py:608-712 | which check refuses a hot backup first: an unclassified volume, nothing to back up, more than one database, a database without a hook |
| `Backup.Job.TakeSnapshots` | app/backup.py:710-736 | data snapshot of exactly the data volumes, one complete dump, and a manifest that names those and nothing else |
| `Backup.Job.Conclude` | app/backup.py:931-974 | restart tried exactly if this backup stopped the instance, marker removed, lock released, one callback, in that order |
| `Backup.BackupInstance` | app/backup.py:870-974 | cold and hot success conditions, the codes of the refusals, no artifact unless all hot checks passed; a hot success with a volume of class database has exactly one, one running container with a hook, its dump in the log and its entry in the manifest, and without such a volume no dump; and the guard of the marker: it holds at every step exactly when, once stopped, the marker had been written, the stop was seen to finish and the restart worked |
| `Versions.ReadsWhatWasWritten` | cli/greffer_cli/update.py:165-188 | every version whose components have at most 18 digits is read back as it was written |
| `Versions.TooLongIsNoClaim` | cli/greffer_cli/update.py:165-189 | a first component of more than 18 digits is no claim |
| `Versions.OlderIff` | cli/greffer_cli/update.py:191-207 | the padded tuple comparison decides by the first differing component, a missing one counting as zero |
| `Versions.Trichotomy` | cli/greffer_cli/update.py:191-207 | a move is backwards, forwards or nowhere, never two of them; nowhere exactly for the same version up to trailing zeros |
| `Versions.OlderIsTransitive` | cli/greffer_cli/update.py:191-207 | two moves backwards, of whatever lengths, make one |
| `Versions.FloorIsADowngradeFromIt` | cli/greffer_cli/update.py:210-239 | below a floor is exactly a downgrade from it, and neither guard makes a claim where the other does not |
| `Versions.GuardsPoint` | cli/greffer_cli/update.py:191-240 | the direction of both guards, on versions as they are written: the first component that differs decides |
| `Versions.FloorIsUpwardClosed` | cli/greffer_cli/update.py:210-239 | what is not older than something at or above the floor is at or above it |
| `ComposeText.ParseIff` | cli/greffer_cli/compose.py:293-298 | the image-line pattern matches a line in at most one way, and one left-to-right pass finds it |
| `ComposeText.TagIff` | cli/greffer_cli/compose.py:308-321 | a tag is valid exactly if it is 1 to 128 letters, digits, underscores, dots and hyphens that start with neither dot nor hyphen |
| `ComposeText.IndentIff` | cli/greffer_cli/compose.py:293-298 | the prefix of the pattern: the key image: among blanks |
| `ComposeText.RepoIff` | cli/greffer_cli/compose.py:293-298 | the repositories of the pattern: greffon/ and then letters, digits, dots, underscores and hyphens |
| `ComposeText.SuffixIff` | cli/greffer_cli/compose.py:293-298 | what may follow the repository: nothing, a colon and anything without blanks and @, or a sha256 digest of 64 hexadecimal digits |
| `ComposeText.StrippedIsRef` | cli/greffer_cli/compose.py:338-341 | what the code cuts out of an image line is its repository with its tag or digest |
| `ComposeText.RewriteImageLines` | cli/greffer_cli/compose.py:321-346 | the new text is the old one rewritten line by line, and the captured map is the last reference of each repository |
| `ComposeText.LinesRoundTrip` | cli/greffer_cli/compose.py:331-346 | splitting into lines and joining them is the identity |
| `ComposeText.ConcatRoundTrip` | cli/greffer_cli/compose.py:331-346 | joining lines and splitting again is the identity |
| `ComposeText.RetaggedLines` | cli/greffer_cli/compose.py:372-391 | a retag puts exactly the target on every image line, keeps its indent, repository and newline, and changes no other line |
| `ComposeText.RetagThenRestoreIff` | cli/greffer_cli/compose.py:321-407 | retagging and restoring the captured references gives the text back exactly when every image line is bare and carries the reference captured for its repository |
| `ComposeText.TidyIff` | cli/greffer_cli/compose.py:321-346 | which is to say: no trailing blanks, and image lines of one repository agree |
| `ComposeText.RestoredText` | cli/greffer_cli/compose.py:394-411 | whatever the text, the restored one has on each image line its repository's captured reference and is the old text elsewhere |
| `ComposeText.RestoreTwice` | cli/greffer_cli/compose.py:394-411 | restoring again changes nothing |
| `ComposeText.CapturedFrom` | cli/greffer_cli/compose.py:338-341 | every captured reference stands on some line of its repository, and every image line's repository is captured |
| `ComposeText.ComposeFile.SetImageTag` | cli/greffer_cli/compose.py:372-391 | an invalid tag is refused with the file untouched; a valid one leaves the retagged text and returns the captured references, or the write raises and the text is the old one |
| `ComposeText.ComposeFile.SetImageRefs` | cli/greffer_cli/compose.py:349-407 | the file becomes its text with the given references on its image lines, or the write raises and it is as before |
| `RunUpdate.ResolveTarget` | cli/greffer_cli/update.py:148-162 | only a syntactically valid tag comes out |
| `RunUpdate.ExplicitWins` | cli/greffer_cli/update.py:148-162 | the explicit target is taken whatever the manifest says, or nothing is; the manifest's latest only without one |
| `RunUpdate.PermittedIff` | cli/greffer_cli/update.py:625-698 | a move is allowed exactly if it stays at or above the floor, does not go backwards unasked, and is confirmed or known not to be listed as "current->target" |
| `RunUpdate.Updater.WriteBack` | cli/greffer_cli/compose.py:349-407 | a restoring write replaces the file or not, and a signal inside it may write them in its stead |
| `RunUpdate.Updater.CutShort` | cli/greffer_cli/update.py:715-725 | an exception or Ctrl-C restores nothing by itself, a SIGTERM restores before it exits unless the gate has passed, a kill ends everything |
| `RunUpdate.Updater.Rollback` | cli/greffer_cli/update.py:386-406 | the references are back exactly if its own write, or that of a SIGTERM handler inside it, went through; success is never reported, and a clean rollback only for a node that came up healthy on references written back |
| `RunUpdate.Updater.Mutate` | cli/greffer_cli/update.py:727-759 | the gate has passed exactly if pull, start and gate did without interruption; otherwise the text is the retagged one or the restored one, exactly by whether a restoring write went through; exit 1 exactly for a failed pull or a rollback that came up healthy |
| `RunUpdate.Updater.Disarm` | cli/greffer_cli/update.py:705-713 | unless the gate has passed, restores the references if its write goes through, and ends in its own exception otherwise |
| `RunUpdate.Updater.Apply` | cli/greffer_cli/update.py:700-761 | after the retag, whatever cuts the run short and wherever: the text is the restored one exactly if some restoring write went through, and one has whenever the run ends with an exit code and without a passed gate |
| `RunUpdate.RunUpdate` | cli/greffer_cli/update.py:535-763 | the file is touched exactly for an accepted target, judged also against the version read under the lock; without a passed gate it ends restored exactly if some restoring write went through, so always when the run ends with an exit code; exit 0 only for a passed gate or nothing to do, exit 1 only for a node that is back where it was |
| `RunUpdate.LastWriteSuffices` | cli/greffer_cli/update.py:759-761 | a run that is not killed and whose last write goes through is always written back |
| `RunUpdate.EachWriteSuffices` | cli/greffer_cli/update.py:700-761 | each of the other restoring writes is enough too: the handler of a SIGTERM in pull, start or gate, and the rollback's after a failed start or gate |
| `RunUpdate.FullDiskKeepsTarget` | cli/greffer_cli/update.py:734-761 | a pull that fails, or Ctrl-C during it, and then a restoring write that raises or is interrupted: no passed gate, and the target stays in the file |
| `RunUpdate.KilledKeepsTarget` | cli/greffer_cli/update.py:727-761 | and so after a kill in the guarded region before a write of the rollback went through |
| `RunUpdate.TargetShowsIff` | cli/greffer_cli/update.py:700-761 | the two texts differ exactly if some image line had another reference than the target's |
| `RunUpdate.FailureIsInvisibleIff` | cli/greffer_cli/update.py:700-761 | the restored text is the old one to the letter exactly when its image lines are bare and agree per repository |
| `Engine.RecreateLeaves` | cli/greffer_cli/updater/recreate.py:461-489 | a recreate that reports success leaves the container running the image asked for; any other leaves the old one, none, or a new one |
| `Engine.DoRecreate` | cli/greffer_cli/updater/recreate.py:461-489 | the four docker steps in order, each only after the one before reported success, leave and report what is specified |
| `Engine.SuccessIff` | cli/greffer_cli/updater/recreate.py:461-489 | a recreate reports success exactly if it could be built, had a name, its stop did not raise and removing, creating and starting reported success |
| `Engine.HealthGate` | cli/greffer_cli/updater/gate.py:24-77 | ready exactly if the first poll that decides says so, and then that poll saw every container with a known expected image run it and every container up; the verdict is that of the first deciding poll |
| `Engine.VerdictIs` | cli/greffer_cli/updater/gate.py:24-77 | a poll decides the first of these that is so: another greffer's id where both are known, fatal, degraded for more than registration_pending, a container not on its image, ready, more than one restart since the start; and nothing when none is |
| `Engine.ExpectedIs` | cli/greffer_cli/updater/engine.py:171-174 | each container of the stack is looked at for its own verified image, where its id is known |
| `Engine.GrefferNameIs` | cli/greffer_cli/updater/engine.py:144-144 | the name asked is that of the first container of the greffer service |
| `Engine.Updater.Advance` | cli/greffer_cli/updater/engine.py:158-169 | one container forward: on the rollback list exactly if its recreate returned, and the rest of the stack untouched |
| `Engine.Updater.Forward` | cli/greffer_cli/updater/engine.py:156-169 | all forward means every container on its verified image under its tag; any stop leaves the rest untouched; tags, containers and rollback list are those of the specification |
| `Engine.ForwardTags` | cli/greffer_cli/updater/engine.py:157-164 | after the forward phase both tags of every container reached are set as far as the commands took, and those of the others are as they were |
| `Engine.ListedIff` | cli/greffer_cli/updater/engine.py:156-169 | on the rollback list are exactly the containers whose recreate returned after all went well before them |
| `Engine.Updater.Rollback` | cli/greffer_cli/updater/engine.py:55-87 | reported rolled back only if every listed container runs its captured image and a gate saw the stack ready; daemon and answer are those of the specification |
| `Engine.Updater.RollbackOne` | cli/greffer_cli/updater/engine.py:66-78 | one container back, the ones already back not disturbed; `:latest` names its captured image once the command took |
| `Engine.TagsComeBack` | cli/greffer_cli/updater/engine.py:64-87 | what every tag names after a rollback that got to its end: of a listed container the captured image if the command that points it there took, else still the verified one; of one reached but not listed what its own commands did, which includes a retag that took and was reported failed; of one not reached what it named before; `:previous` the outgoing image where that command took |
| `Engine.AgainIff` | cli/greffer_cli/updater/engine.py:155-191 | a second rollback is taken exactly if the first raised and the run had come to it without an exception |
| `Engine.Clear` | cli/greffer_cli/updater/engine.py:104-149 | goes on exactly if the greffer is in the stack, the target is no downgrade, and every image verified and every container inspected |
| `Engine.RunRemoteUpdate` | cli/greffer_cli/updater/engine.py:90-191 | exit, daemon, rollback list and the container that raised are those of the specification Outcome; refused exactly if not cleared, and then no tag and no container has changed; success means every container on its verified image, under its tag and seen so by the gate, and `:previous` on the outgoing one; rolled back means every listed container on its captured image and the others untouched, but for one whose recreate raised, with the tags as TagsComeBack says |
| `Engine.AppliedIff` | cli/greffer_cli/updater/engine.py:104-188 | reported applied exactly if all was cleared, every command of the forward phase went well, the gate over the new containers says ready, the version has not gone back and nothing raised |
| `Engine.ForwardedDoneIff` | cli/greffer_cli/updater/engine.py:156-169 | the forward phase gets through exactly if no tag or retag raises or fails and every recreate reports success |
| `Engine.RolledBackOnTheNewImage` | cli/greffer_cli/updater/engine.py:158-191 | for every name, repository and pair of images a run that ends as rolled back with the container on the new image: its start took effect and raised |
| `Engine.RolledBackIff` | cli/greffer_cli/updater/engine.py:158-191 | after a reported rollback all containers run the images they ran before exactly when no recreate raised after it had removed a container whose image was to change; of containers whose image docker shows |
| `Engine.RaisedLeaves` | cli/greffer_cli/updater/engine.py:164-166 | what a raised recreate leaves: the old container in place, or the new image, which the rollback list does not know |
| `Recreate.KvListToDict` | cli/greffer_cli/updater/recreate.py:252-258 | the mapping a KEY=VALUE list means, the last entry of a key winning and no key holding an equals sign |
| `Recreate.ArgumentsRoundTripIff` | cli/greffer_cli/updater/recreate.py:447-450 | docker reads the -e and --label arguments back as the delta exactly when no key holds an equals sign |
| `Recreate.RollbackIff` | cli/greffer_cli/updater/recreate.py:512-522 | the delta against the old image, laid over it again, is the container's own configuration exactly when it kept every key of the image |
| `Recreate.OnNewImage` | cli/greffer_cli/updater/recreate.py:261-273 | on any new image a key compose had set keeps its value, every other takes the new default |
| `Recreate.OverlayAfterOne` | cli/greffer_cli/updater/recreate.py:261-273 | an update loses of the overlay exactly the entries the new image bakes in |
| `Recreate.OverlayAfterChain` | cli/greffer_cli/updater/recreate.py:261-273 | over any chain of updates an overlay entry is lost exactly if some image on the way baked in its very value |
| `Recreate.EntryAfterChain` | cli/greffer_cli/updater/recreate.py:261-273 | an entry no image bakes in is on the container after every chain; a lost one ends with what the last image says |
| `Recreate.ChainEndsOnLast` | cli/greffer_cli/updater/recreate.py:415-458 | the container at the end of a chain is its last image under its overlay |
| `Recreate.CommandRollbackIff` | cli/greffer_cli/updater/recreate.py:399-412 | the exact condition under which entrypoint and command come back: an entrypoint override of at most one word, nothing emptied, no command equal to the image's beside an entrypoint override |
| `Recreate.ScalarOnImage` | cli/greffer_cli/updater/recreate.py:387-396 | a scalar field survives an update exactly if compose set it or the new default equals it; an emptied one is lost |
| `DeployLog.ClampTail` | apps/utils/docker/instance_logs.py:53-61 | between 1 and 1000, and the value itself when it lies there; 200 for a missing value or no number |
| `DeployLog.ReadDeploy` | apps/utils/docker/instance_logs.py:177-208 | the first complete lines from the offset on, the next offset just after them, truncated exactly if more were waiting, rotated exactly if the offset lay past the end |
| `DeployLog.WaitingIs` | apps/utils/docker/instance_logs.py:196-205 | what a poll gives out is the file between the two offsets, line by line |
| `DeployLog.WaitingEnds` | apps/utils/docker/instance_logs.py:196-205 | the next offset is at the start of a line, and further on whenever a complete line was waiting |
| `DeployLog.Decompose` | apps/utils/docker/instance_logs.py:198 | a text is its complete lines and then the partial one |
| `DeployLog.LinesOfUnlines` | apps/utils/docker/instance_logs.py:198 | complete lines are read back from their bytes, whatever follows |
| `DeployLog.FollowIsOneRead` | apps/utils/docker/instance_logs.py:177-208 | after any polls with any tails of a growing file, everything given out is the file between the first and the last offset, no line repeated, skipped or split |
| `DeployLog.FollowFromStart` | apps/utils/docker/instance_logs.py:177-208 | from offset 0 the polls gave out the complete lines of the file up to the last offset |
| `DeployLog.FollowDrains` | apps/utils/docker/instance_logs.py:177-208 | a file that stands still is given out entirely within as many polls as it has lines |
| `DeployLog.ReplacedLogIsMissed` | apps/utils/docker/instance_logs.py:187-190 | a replaced log that has grown to the offset is read on from its middle: fewer lines than it has |
| `ContainerLog.BoundedReadSuffices` | apps/utils/docker/instance_logs.py:138-167 | more than tail survivors of the tail+1 read exactly when more than tail lines are new, and the newest tail are the same, when the read is asked from the cursor's second or an earlier one |
| `ContainerLog.LateSinceIff` | apps/utils/docker/instance_logs.py:100-107 | the cursor is read as local time: a read loses new lines exactly if some are older than the second it is asked from, so none at or east of UTC |
| `ContainerLog.ReadOneContainer` | apps/utils/docker/instance_logs.py:122-174 | the new lines, or the newest tail of them and a flag; the cursor at the last line given; a refused read keeps it; asked from a later second than the cursor's, it is the read of what is not older than that |
| `ContainerLog.NeverEmittedTwice` | apps/utils/docker/instance_logs.py:153-170 | over any polls, whatever the daemon dropped between them, lines come out in increasing order and once |
| `ContainerLog.UnflaggedPollsMissNothing` | apps/utils/docker/instance_logs.py:134-136 | polls of a growing log that were never flagged gave out exactly the lines after the first cursor |
| `ContainerLog.NewOfGrown` | apps/utils/docker/instance_logs.py:153-156 | what is new of a grown log is what was new, and then what came after it |
| `ContainerLog.InstanceLogs` | apps/utils/docker/instance_logs.py:254-280 | every container read from its service's position, the lines merged, positions only of services still there, flagged exactly if one read was |
| `ContainerLog.LastContainerSetsThePosition` | apps/utils/docker/instance_logs.py:262-272 | a service's next position is the one its last container reached |
| `ContainerLog.MergeSorts` | apps/utils/docker/instance_logs.py:273-274 | the merge puts the lines in the order of their stamps, keeps each of them once, and those of one stamp in the order they were read |
| `ContainerLog.CollectedIsRead` | apps/utils/docker/instance_logs.py:261-270 | what is merged is, container by container, what was read of it |
| `InstanceFollow.FollowIsExactIff` | apps/utils/docker/instance_logs.py:250-272 | for any services, any polls of growing logs, never flagged: every container's lines come out once, in order and without a gap exactly when at each poll after the first the position of its service stood between what it had written at the poll before and what it wrote since |
| `InstanceFollow.OwedIs` | apps/utils/docker/instance_logs.py:250-272 | what such polls owe of a container: the tail of the first, and everything written after it |
| `InstanceFollow.StepIsExactIff` | apps/utils/docker/instance_logs.py:250-272 | one unflagged poll gives what was written since the last exactly if the position fits |
| `InstanceFollow.DistinctServicesFollowIff` | apps/utils/docker/instance_logs.py:250-272 | with one container a service, exactly when no container that was silent at a poll writes more than a tail before the next: it has no position yet, and the rest is cut without a flag |
| `InstanceFollow.OwnPosition` | apps/utils/docker/instance_logs.py:262-272 | with one container a service its position is the stamp of the last line that container had written |
| `InstanceFollow.SiblingAheadLoses` | apps/utils/docker/instance_logs.py:250-272 | two containers of one service: what the first writes at or before the stamp the second had reached is given out by no poll, and nothing is flagged |
| `InstanceFollow.SiblingBehindRepeats` | apps/utils/docker/instance_logs.py:250-272 | and what the first had given out after that stamp is given out again |
| `Migrations.Registry.Register` | apps/utils/ops_migrations/registry.py:23-48 | refused, with the registry unchanged, exactly for an empty id, a repeated one, or advisory together with stop_on_failure |
| `Migrations.Ledger.Load` | apps/utils/ops_migrations/ledger.py:51-57 | memory and file agree, and a sentinel is recorded before it is removed; a file that is no UTF-8 raises; the effects are those of the specification |
| `Migrations.SentinelIsRecorded` | apps/utils/ops_migrations/ledger.py:51-57 | a sentinel is recorded as the one migration it stands for, before it goes |
| `Migrations.Ledger.MarkApplied` | apps/utils/ops_migrations/ledger.py:75-92 | the id is in memory and file, or the write raised and the file is as before |
| `Migrations.Ledger.RunSingle` | apps/utils/ops_migrations/runner.py:123-222 | ok exactly for an error-free run; a required one is then recorded, an advisory one never; an exception leaves it exactly for an infinite error count or a ledger write that fails |
| `Migrations.RequiredTurn` | apps/utils/ops_migrations/runner.py:83-222 | a required migration by its summary: a count of zero or less is recorded if the ledger can be written, a positive one or none shows as failed and is not, an infinite one raises |
| `Migrations.AdvisoryTurnIs` | apps/utils/ops_migrations/runner.py:83-222 | an advisory one is never recorded, and a positive count shows only under fail-fast |
| `Migrations.IdleTurn` | apps/utils/ops_migrations/runner.py:47-83 | no turn for a migration not asked for, or required and recorded; under dry run the others are listed as ok and not run |
| `Migrations.ApplyPending` | apps/utils/ops_migrations/runner.py:47-120 | any batch is a proper history: the very effects, results and exception that the specification WholeBatch gives; and without an exception the file holds the ids in view |
| `Migrations.OkMeansRecorded` | apps/utils/ops_migrations/runner.py:47-120 | a full batch that ends without an exception and with only ok results has recorded every required migration |
| `Migrations.FailureShownIff` | apps/utils/ops_migrations/runner.py:83-119 | the results of a batch without an exception show a migration as failed exactly if it ran and failed, an advisory one only under fail-fast |
| `Migrations.RaisedIff` | apps/utils/ops_migrations/runner.py:123-222 | a run of migrations ends with an exception exactly if one ran whose error count is infinite, or that is required, ran without error and could not be recorded |
| `Migrations.HaltedIff` | apps/utils/ops_migrations/runner.py:83-119 | a batch halts exactly if a migration ran and failed that stops the rest, itself or by fail-fast; an infinite count raises instead |
| `Migrations.AdvisoryRaisesIff` | apps/utils/ops_migrations/runner.py:174-185 | an advisory migration ends the batch with an exception exactly if it gets its turn and its error count is infinite: the guard names TypeError and ValueError, and the conversion raises OverflowError |
| `Migrations.AdvisoryBootIff` | apps/utils/ops_migrations/runner.py:83-119 | a boot with advisory migrations only stops exactly if one of them has an infinite error count; otherwise every result is ok |
| `Migrations.BatchInOrder` | apps/utils/ops_migrations/runner.py:66-77 | migrations run in their order, each at most once, and none under a dry run or a skip |
| `Migrations.EverythingRecordedIsJustified` | apps/utils/ops_migrations/ledger.py:75-153 | over any history ids only grow, each new one had an error-free run or stands for the sentinel, and the sentinel is not lost |
| `Migrations.RecordedNeverRunsAgain` | apps/utils/ops_migrations/runner.py:72-77 | a recorded migration that is not advisory never runs again |
| `Migrations.ReadableLedgerOnlyGrows` | apps/utils/ops_migrations/ledger.py:158-176 | a readable ledger stays readable and loses nothing |
| `Migrations.LedgerIs` | apps/utils/ops_migrations/ledger.py:96-153 | over any batches the file is what it recorded at the start and then what was added, in order; but what an unreadable one recorded is dropped at the first write |
| `Migrations.LedgerKeepsIff` | apps/utils/ops_migrations/ledger.py:96-117 | it keeps what it recorded, in its place, exactly if it could be read, was never written, or the same ids were recorded again |
| `Migrations.BrokenLedgerRunsNothing` | apps/utils/ops_migrations/ledger.py:61-66 | a ledger that is no UTF-8, or has an entry without an id, makes every batch raise before a migration runs, and stays |
| `Migrations.LookupRaisesIff` | apps/utils/ops_migrations/ledger.py:60-73 | a ledger with an entry without an id ends a batch exactly if a lookup is made: for any migration, or for the one asked for |
| `Migrations.UnreadableLedgerIsReplaced` | apps/utils/ops_migrations/ledger.py:96-117 | an unreadable one is not left alone: the first write replaces it, and what else it recorded may run again |
| `Migrations.Suffix` | apps/utils/ops_migrations/runner.py:47-120 | what follows in a proper history is proper from there |
| `Migrations.Join` | apps/utils/ops_migrations/runner.py:47-120 | histories of successive batches join |
| `Migrations.RunBatches` | apps/utils/ops_migrations/runner.py:47-120 | any number of batches, each with the effects specified for it and killed at any step, leave one proper and justified history |
| `ComposeShape.PortShape` | apps/utils/greffon/compose_shape.py:117-166 | an accepted port has a target 1 to 65535 and a protocol of none, tcp or udp, and is accepted unchanged again |
| `ComposeShape.PortUncaughtIff` | apps/utils/greffon/compose_shape.py:113-166 | a port raises an error nobody names exactly if it or its target is an integer of more than 4300 digits, its target text is of digits int() does not convert, or its long form has a good target and a list or mapping as protocol |
| `ComposeShape.ZerosAndSuperscriptsEscape` | apps/utils/greffon/compose_shape.py:151-156 | two such texts: 80 behind 4300 zeros, and 8 squared |
| `ComposeShape.RefusalThatCannotBePrinted` | apps/utils/greffon/compose_shape.py:94-112 | a refusal whose message shows an integer of more than 4300 digits raises in its place |
| `ComposeShape.IntegerPortIff` | apps/utils/greffon/compose_shape.py:119-154 | an integer entry is accepted exactly from 1 to 65535, and means itself |
| `ComposeShape.ShortPort` | apps/utils/greffon/compose_shape.py:121-129 | a bare port, one behind any host part, and either with a protocol in any case mean that port and protocol |
| `ComposeShape.LongPortIff` | apps/utils/greffon/compose_shape.py:130-166 | a long port is accepted exactly with a number or its text for a target and with no protocol, tcp or udp, and then means just that |
| `ComposeShape.LeadingZeroIsAnotherTarget` | apps/utils/greffon/compose_shape.py:459-487 | the uniqueness of targets is of their text: each of fewer than 4300 digits is the same port with a leading zero, counts as another, and stands beside it in an accepted list |
| `ComposeShape.SamePortIff` | apps/utils/greffon/compose_shape.py:117-166 | two spellings are one port exactly when they differ in leading zeros at most |
| `ComposeShape.OneSpelling` | apps/utils/greffon/compose_shape.py:117-166 | without a leading zero a port has one spelling |
| `ComposeShape.DistinctPortsIff` | apps/utils/greffon/compose_shape.py:459-487 | the ports of an accepted service are distinct exactly when no two of its entries differ only in leading zeros |
| `ComposeShape.AcceptedPortsIff` | apps/utils/greffon/compose_shape.py:396-511 | and so for every service of an accepted file |
| `ComposeShape.VolumeShape` | apps/utils/greffon/compose_shape.py:170-266 | an accepted volume has a named source, an absolute target and a documented mode; again it keeps all but a mode other than ro and rw |
| `ComposeShape.ShortVolumeIff` | apps/utils/greffon/compose_shape.py:176-198 | a short volume is accepted exactly when it reads SOURCE:TARGET or SOURCE:TARGET:MODE with a named source, an absolute target and a documented mode, and means just that |
| `ComposeShape.LongVolumeIff` | apps/utils/greffon/compose_shape.py:199-266 | a long volume is accepted exactly without options of its own, as a volume or untyped, from a named source to an absolute target; read_only wins over the mode, and of the modes ro and rw are kept |
| `ComposeShape.VolumeUncaughtIff` | apps/utils/greffon/compose_shape.py:199-266 | a volume raises an error nobody names exactly when a long one has a non-empty source, or behind a good source a target, that is no string |
| `ComposeShape.ServiceReread` | apps/utils/greffon/compose_shape.py:442-510 | an accepted service has the stated shape, and is read again as the same but for those modes |
| `ComposeShape.ShapeMeans` | apps/utils/greffon/compose_shape.py:442-510 | the stated shape, spelled out: the targets distinct texts of numbers 1 to 65535, tcp or udp; named sources, absolute targets and the eight documented modes; declared networks or the default one |
| `ComposeShape.RewriteIff` | apps/utils/greffon/compose_shape.py:442-510 | writing a service twice changes nothing more exactly when its modes are none, ro or rw |
| `ComposeShape.AcceptedIsShaped` | apps/utils/greffon/compose_shape.py:396-511 | an accepted file: allowed keys, safe service names, and in every service distinct targets, named volumes and declared networks |
| `ComposeShape.KeysAllowedIff` | apps/utils/greffon/compose_shape.py:309-393 | the allowlist key by key: the four top-level keys; of a service the managed and the base keys, the privileged ones outside the strict set, and what is granted, but never env_file |
| `ComposeShape.SafeNameIff` | apps/utils/greffon/compose_shape.py:53-55 | a service name is letters, digits, dots, underscores and hyphens |
| `ComposeShape.DeclaredIff` | apps/utils/greffon/compose_shape.py:419-430 | a network is declared by a list that has its name or a mapping that has it for a key; nothing empty refuses |
| `ComposeShape.PrivilegedKeysNeedAGrant` | apps/utils/greffon/compose_shape.py:297-393 | in an accepted file no service has env_file, whatever was granted; a privileged key is there only in the catalog set or by a grant; every other key is on the list or granted |
| `ComposeShape.NormalizingTwiceIff` | apps/utils/greffon/compose_shape.py:396-403 | normalising an accepted file again is accepted, and changes nothing exactly when every mount mode is none, ro or rw |
| `ComposeShape.PortsUncaughtIff` | apps/utils/greffon/compose_shape.py:442-458 | a ports list escapes exactly when its first entry that is not accepted does |
| `ComposeShape.MountsUncaughtIff` | apps/utils/greffon/compose_shape.py:442-458 | the same of a volumes list |
| `ComposeShape.ServiceUncaughtIff` | apps/utils/greffon/compose_shape.py:442-510 | a service escapes exactly through its ports, or with those accepted through its volumes |
| `ComposeShape.ServicesUncaughtIff` | apps/utils/greffon/compose_shape.py:424-510 | the services escape exactly when the first that is not accepted does |
| `ComposeShape.ComposeUncaughtIff` | apps/utils/greffon/compose_shape.py:396-511 | the pass lets an error through that is not its own exactly if its refusal cannot be printed, or the first service that is not accepted escapes |
| `ComposeShape.FindDuplicate` | apps/utils/greffon/compose_shape.py:473-487 | finds a target published twice exactly if there is one |
| `ComposeShape.NormalizePorts` | apps/utils/greffon/compose_shape.py:442-458 | the loop over the ports block computes the specified list or the first refusal |
| `ComposeShape.NormalizeVolumes` | apps/utils/greffon/compose_shape.py:442-458 | the same of the volumes block |
| `ComposeShape.NormalizeDefinition` | apps/utils/greffon/compose_shape.py:424-510 | one turn of the service loop computes the specified service |
| `ComposeShape.NormalizeCompose` | apps/utils/greffon/compose_shape.py:396-511 | the pass, loop by loop, computes the function the lemmas are about |

## Left out

- L4Ports.Allocator.Allocate: reads the clock once per allocation, where the program reads it at each reservation; the sticky files are maps here, and what is read of a damaged one is StickyPorts.
- L4Ports.PublishedL4Ports: ports whose protocol comes in several spellings are compared in lower case only on the daemon's side, as in the program; the random host ports of entries that are not L4 are not modelled.
- StickyPorts.Sidecar.Save: two saves of one instance at a time are out of its scope, as the program says of itself; the text of a JSON file is not modelled.
- LockProtocol.MutualExclusion: the repository-operation lock registry (app/backup.py:1464-1548), where lookup and acquire are two steps, is not part of this model.
- CertSchedule.WorkerDeliversFourAttempts: skips for a missing port, a compose child, a settling sidecar or a busy lock are among the turns that do not get to the instance, and are not told apart.
- CertDebt.RunLives: the installation, reload and probing of a certificate are outcomes; the pass lock and cancellation are not modelled.
- Restore.RestoreInstance: the run state is stated for docker calls that do their work and a safety snapshot that reports its id; error texts of restic are classified outside the model; a restore is spawned with its release, and the status read before the try block succeeds.
- Backup.BackupInstance: the repository size estimate in the callback is not modelled, and the order in which docker lists volumes does not matter.
- RunUpdate.RunUpdate: printing, the mode of the deployment, the manifest download and the health gate of the operator's path are outcomes; a platform without file locks is one where the lock is free; the temporary file that an interrupted write leaves is not modelled.
- ComposeText.ParseIff: lines end in '\n' and blanks are space, tab and carriage return; the other separators of str.splitlines, a carriage return inside a line among them, are not modelled.
- Versions.ReadsWhatWasWritten: ASCII digits only.
- Engine.Clear: an exception other than a failed verification before the first change, which ends the run with everything as it was.
- Engine.RunRemoteUpdate: what makes an argument vector unbuildable is one outcome, looked at before the container's name; signature verification is one outcome per image, image ids are not empty, and pruning dangling images touches nothing the model holds.
- Recreate.CommandRollbackIff: networks, mounts, ports, logging, restart policy and health checks are carried by builders whose claims are one branch each.
- DeployLog.ReadDeploy: a file that cannot be read gives nothing and keeps the offset; decoding of bytes to text is not modelled.
- ContainerLog.ReadOneContainer: stable sorting of lines the daemon interleaved out of order is the identity here, because stamps increase.
- ContainerLog.InstanceLogs: the encoding and validation of cursors, and lines without a stamp, are not modelled.
- InstanceFollow.FollowIsExactIff: polls of the same containers whose logs only grow and are readable; a container that comes, goes or refuses a read between polls is not part of it.
- Migrations.ApplyPending: an `applied` that is no list of mappings raises at one of the two places where the other broken ledgers do; summaries, durations and backups are reduced to what decides; the file lock around a batch is what makes batches follow one another.
- ComposeShape.NormalizeCompose: parsing of YAML and of the operator's extra keys; decimal digits outside ASCII, which Python converts and the model refuses; a definition that two services share by a YAML alias on the catalog path, which is normalised twice in one pass and so loses at once what ComposeShape.NormalizingTwiceIff says a second pass loses.
- HTTP clients and routes, registration, heartbeat, monitoring, revocation lists, `up`, `doctor` and `status`, nginx configuration, rendering and its budget, stats digests: plumbing, library behaviour, or claims settled by one branch.
