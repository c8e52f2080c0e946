# Logline replication, modelled and proved

Logline mirrors growing log files from many machines to one server. This project models the
replication of **one tailed path**: the agent's segments and coordinator, the server's connection
handling and files, the marker watcher, the wire format between them, and the network, which may
lose calls, lose acknowledgements, deliver data frames late, and drop connections. It proves what
the system is for: every mirrored file is an unbroken prefix of one local inode, through retries,
rotations, renames, crashes and restarts of segments.

Run `dafny verify dfyconfig.toml` in this directory to check everything.

## How it is built

| file | content |
|---|---|
| `Prelude`, `Names`, `Files` | bytes and writing at a position; the names one path can have and their spelling; directory, inodes, descriptors, and the two frames a server connection accepts |
| `Markers` | what marker names say, and the class `MarkerWatcher` |
| `Protocol` | the whole system as a machine: `World`, the `Step`s of environment, segments and coordinator, when a step is possible (`Enabled`), what it does (`Next`), and which steps are hazards |
| `Invariant` | `Control`, the part about segments and coordinator alone; `InvIn`, which adds the server's files, in four degrees of strictness (`Mode`); and `Inv`, the degree the main results are about |
| `Lifecycle`, `History` | every step, hazard or not, keeps `Control`, and the directory's history in order |
| `Preservation`, `Safety` | every step that is not a hazard keeps the invariant, in every degree |
| `Effects`, `Theorems`, `Recovery` | the abstract mirror and the main results |
| `Corruption`, `Adoption`, `Detached`, `Rollback` | what each hazard can lead to: exactly when some continuation corrupts a file |
| `Hazards` | concrete failing runs, and exact conditions for single steps |
| `Sessions`, `Durability` | several connections on one directory; what survives a server crash |
| `Wire`, `Requests`, `Delivery` | bytes on the wire, what the server makes of them, and that a call on the wire is the protocol's step |
| `Server` | the server's and the client's connection objects, in place, proved against those specifications |
| `Calls` | what the outcomes of one call have in common, what a crash can leave, and which steps change what |
| `Network`, `Agent`, `Coordinator` | the asynchronous tasks as classes. `Net` holds the world; at every `await` any steps of other tasks may happen (`Net.Yield`). `Segment` and `PathCoordinator` update their own fields as the source does, and every change they make to the world is a step of `Protocol` (`Net.Take`), so that the theorems about runs hold of them. What becomes of each call, and what each look at the directory finds, is given to them (`fate`, `listings`) and not theirs to choose |

One remote call is one step with four possible outcomes: acknowledged, applied but the
acknowledgement lost, not applied, or (data frames through an open descriptor only) applied at any
later time. The directory sync after an accepted rename succeeds or fails. A server crash goes back
to any state of the directory since the last sync that succeeded, keeps any part of it, and cuts
every file to any prefix.

## What the code needs

`Theorems.Reachable` states are those any run leads to from a freshly started coordinator. What
segments and coordinator do among themselves is proved for all of them. What the server's files hold
is proved for runs without a *hazard* (`Protocol.Hazard`). There are four kinds of hazard:

- **A handshake that cannot tell** (`Protocol.CanTell`). The agent compares only the first bytes of
  the live file with its own, and treats a missing remote hash as a match. It can tell if there is no
  remote file; or the file is empty and no delayed data frame is still on its way to it; or its own
  prefix is not empty, begins no other local inode, and is not confused by SHA-1 with the beginning
  of the file. `Preservation.WhoCanTellNeverAdopts` shows that the comparison then never resumes onto
  another inode's bytes. When it does resume, some continuation without a further hazard corrupts the
  file if and only if what the file holds, or a delayed frame is about to write to it, is not what the
  local inode holds there (`Adoption.AdoptionCorruptsExactly`). `Hazards.EmptyPrefixMixesFiles` is a
  run of the code that ends so.
- **Detached creation.** A frame creates a file through a connection that has no descriptor and
  tracks another name than the agent means. Only the no-op answer to a seal rename of an ephemeral
  segment that never shipped a byte leads there (`Hazards.SealKeepsTrackExactly`). If no delayed
  frame is on its way to the live file, some continuation without a further hazard corrupts a file
  if and only if the frame clashes with a segment that takes the live file for its own
  (`Detached.DetachedFrameCorruptsExactly`): what is there now, filled with zeros up to where that
  segment writes next, does not begin its inode; or the sender goes on writing, and reads another
  inode or is about to be overwritten. That the frame leaves a beginning of the other inode is not
  enough to be safe, because the other descriptor may already be behind it.
  `Hazards.EmptySealMixesFiles` is a run.
- **Mixing crashes** (`Protocol.CrashMixes`). A crash leaves, under the name of a segment that will
  reconnect without comparing prefixes, a file that does not begin the segment's inode. A crash can
  bring entries back because a failed directory sync is only logged and the rename is acknowledged
  all the same: a rename is open to being undone if and only if its directory sync failed
  (`Rollback.RollbackPossibleExactly`), and as long as none fails nothing comes back
  (`Rollback.SyncedRunsNeverRollBack`). After a crash some continuation without a further hazard
  corrupts a file if and only if the crash was of this kind (`Rollback.CrashCorruptsExactly`); all
  other crashes, also those that bring entries back, are covered by the results about runs.
  `Hazards.UnsyncedSealMixesFiles` is a run.
- **Taken names.** A timestamp from the clock names something that exists, is about to, or could come
  back in a crash, or a marker timestamp was used on the server before the coordinator started, since it forgets what it
  consumed when it restarts.

Further assumptions are built into the steps: sources only grow; only this agent writes this path's
files; an undelivered rename, or a frame that would create a file, is never applied later
(`Sessions.LateCreationLeavesGap` shows why the latter is needed). That `stat` and `open` see the
same inode is not assumed: the coordinator may open any inode and remember any other.

## Where code and documentation differ

The model follows the code in each case.

- `agent/logline_agent/coordinator.py:313` tests `>= 0`, which always holds. A rename that was lost
  is never sent again; the agent goes on under the new name and the file keeps the old one. No byte
  is lost, but the seal name need not exist (`Hazards.SealNameExistsExactly`).
- `server/logline_server/main.py:241-244` says a malformed first frame never leaves a stray file. It
  does when its offset is 0 (`Requests.RejectedFirstFrameExactly`).
- `server/logline_server/main.py:308-310` promises durable renames. A failed fsync is only logged
  and the rename is acknowledged all the same (`Durability.SealIsDurableExactly`,
  `Hazards.UnsyncedSealMixesFiles`).
- "Newest" in `agent/logline_agent/marker_watcher.py:62-68` is the one first seen last, not the
  latest time (`Markers.NewestIsLast`).

## Model

| member | source | states |
|---|---|---|
| Theorems.EveryFileIsAPrefix | agent/logline_agent/coordinator.py:199-315 | From any server directory the protocol can have left behind, however well synced, in every state of every run whose live handshakes can tell their file by the prefixes compared, whose crashes leave no foreign file under a name a segment opens without comparing, whose clock and marker names are fresh and in which no frame creates a file under another name than meant - with calls and acknowledgements lost, data frames late, server crashes, entries brought back, rotations, stale recovery, dead and respawned segments in any order - the content under every server name is a prefix of one local inode |
| Safety.StepKeepsInv | server/logline_server/main.py:237-343 | Every step of the environment, a segment or the coordinator that is not one of the four hazards keeps the whole invariant: files are prefixes of their own inode, working connections write only their own file, future seal names are free, timestamps are used once, every running segment is known to the coordinator |
| Safety.RunKeepsInv | agent/logline_agent/coordinator.py:112-315 | The same over runs of any length; such a run never gets stuck on an impossible step |
| Lifecycle.StepKeepsControl | agent/logline_agent/coordinator.py:112-172 | Every step, hazards included, keeps what concerns segments and coordinator alone: target histories, seal requests, roles, fail-closed mode, timestamps used once, every running segment known |
| Lifecycle.RunKeepsControl | agent/logline_agent/coordinator.py:361-418 | The same over every run |
| Preservation.WhoCanTellNeverAdopts | agent/logline_agent/coordinator.py:199-214 | A live handshake whose prefix is not empty, begins no other local inode and is told apart by SHA-1 never resumes onto a file made for another inode; nor does one that finds no file, or an empty one nothing is on its way to |
| Theorems.RunRefinesMirror | agent/logline_agent/coordinator.py:112-315 | Every hazard-free run is, step for step, a run of an abstract map from names to (inode, length): after each step the map is what the directory then shows, and the moves are only append, begin, claim an empty file, relabel to a free name, clobber the fixed orphan, cut back in a crash, roll back to entries the directory once had in a crash that undoes a rename, and nothing; only ephemeral sources clobber |
| Theorems.MirrorDeterminesFiles | server/logline_server/main.py:209-295 | The abstract map determines every file: it is exactly the first `length` bytes of the named inode |
| Effects.StepSimulates | server/logline_server/main.py:209-343 | One hazard-free step is one abstract move, which also fixes what happens to every inode, linked or not |
| Theorems.RunConserves | agent/logline_agent/coordinator.py:140-172 | Over a run without a server crash every server inode only grows and, once it has a byte, keeps its source; for a non-ephemeral source every inode ever created stays linked |
| Rollback.LinkedOnce | server/logline_server/main.py:324-340 | In every run, whatever crashes undo, no server inode ever has two names |
| Theorems.OneLiveSegment | agent/logline_agent/coordinator.py:361-418 | In every run at most one running segment targets the basename, and it is the one the coordinator calls live |
| Theorems.TargetsDistinct | agent/logline_agent/coordinator.py:403-418 | For a non-ephemeral source no two running segments have the same target, in every run in which the clock does not give two running orphans one timestamp |
| Theorems.StartsAfterSeal | agent/logline_agent/coordinator.py:388-418 | In every run, whenever a live segment starts, no running segment targets the basename any more |
| Theorems.NoLostSegment | agent/logline_agent/coordinator.py:361-386 | In every state of every run each running segment is the live one or closing, and a remembered inode implies a live segment |
| Theorems.LifeOfASegment | agent/logline_agent/coordinator.py:140-172 | In every run the targets a segment has had are an initial part of live -> iso -> iso.sha13, live -> iso.orphan, or live -> orphan, with iso and sha13 known from markers in the first chain |
| Theorems.SealTimestampsDistinct | agent/logline_agent/coordinator.py:403-418 | In no run are two segments sealed under the same marker timestamp |
| Theorems.KnowledgeIsFromMarkers | agent/logline_agent/marker_watcher.py:48-60 | Every timestamp and hash known was read off a marker name that some scan of the run listed |
| Theorems.KnowledgeNeverChanges | agent/logline_agent/marker_watcher.py:54-60 | What is known from markers is never revised or forgotten, whatever is scanned later |
| Theorems.KnowledgeIsWellFormed | agent/logline_agent/marker_watcher.py:24-39 | Everything known has the form of a timestamp or a 13-digit hash, and no timestamp is listed twice |
| Recovery.NeverOpensFixedOrphan | agent/logline_agent/coordinator.py:274-279 | In no run does any handshake have the shared `<basename>.orphan` as its target |
| Recovery.AtMostTwoFiles | agent/logline_agent/coordinator.py:146-165 | In every run without markers, crashes and hazards included, an ephemeral source never has a server file besides the live one and the one orphan |
| Preservation.StaleSeenExactly | agent/logline_agent/coordinator.py:199-214 | If SHA-1 tells the two prefixes apart, a live handshake takes the remote file for stale if and only if both prefix and file are non-empty and the file does not start with the prefix |
| Recovery.NeverAppendsToStale | agent/logline_agent/coordinator.py:199-236 | Over every hazard-free run, whatever becomes of the attempt to put a stale file aside: a frame goes only to a file that begins like the prefix the segment introduced itself with, as far as both go, and still does after the frame; a file it creates did not exist |
| Recovery.LateFramesBeginAlike | agent/logline_agent/coordinator.py:199-236 | The same before and after a delayed frame is applied, for every segment of the inode the file was made for |
| Recovery.StaleFileSurvives | agent/logline_agent/coordinator.py:216-236 | Putting a stale file aside changes no byte of any file; acknowledged, the old file is intact under the seal name and the basename is free; otherwise the segment ends |
| Recovery.ReopenStartsAtZero | agent/logline_agent/coordinator.py:233-236 | In every hazard-free run in which no crash has brought entries back, the second handshake finds no file under the basename and starts in step at offset 0 |
| Recovery.ReopenSyncs | agent/logline_agent/coordinator.py:233-236 | In any case it starts in step, at the length of what is there, and that begins the segment's inode |
| Recovery.SyncedAtEndIsComplete | agent/logline_agent/coordinator.py:263-289 | A stream in step with the server at the end of its inode means the server file equals the inode |
| Recovery.SyncedSend | server/logline_server/main.py:284-293 | From a stream in step, a delivered frame is accepted and the two stay in step |
| Recovery.DrainCompletes | agent/logline_agent/coordinator.py:263-289 | From a stream in step, failure-free draining ends after at most as many frames as bytes were left, and the server file then equals the inode |
| Recovery.OneSendResyncs | agent/logline_agent/coordinator.py:272-285 | From any stream position, one frame outside fail-closed mode leads back into step, whether it is accepted or the segment reconnects and seeks |
| Recovery.ReconnectSyncs | agent/logline_agent/coordinator.py:283-284 | Reconnecting and seeking to the reported length puts stream and server in step |
| Recovery.OutageResyncs | agent/logline_agent/coordinator.py:238-285 | However far a crash cuts files back, and whatever it loses or brings back unless it is foreign, the failed frame and the reconnect end in step at exactly the length the server has left |
| Recovery.CrashHeals | agent/logline_agent/coordinator.py:238-289 | After that, a failure-free drain makes the server file equal the inode again, with no gap and no repetition |
| Recovery.FinalizedIsComplete | agent/logline_agent/coordinator.py:166-172 | An acknowledged final rename after everything was shipped leaves the whole inode under `<basename>.<iso>.<sha13>` and nothing under the seal name |
| Hazards.EmptyPrefixMixesFiles | agent/logline_agent/coordinator.py:211-214 | A concrete run: a live segment of a still empty inode adopts the previous file and appends the new bytes behind the old ones |
| Adoption.AdoptionCorruptsExactly | agent/logline_agent/coordinator.py:199-214 | When a live handshake resumes onto a file, some continuation without a further hazard leaves a file that begins no local inode - and then the live file can be that file - if and only if what the live file holds, or a delayed frame will write to it, is not what the segment's inode holds there |
| Hazards.ResumeIsSafeExactly | agent/logline_agent/coordinator.py:204-214 | Resuming onto remote content keeps a prefix of a single inode, whatever is appended later, if and only if that content is a prefix of the new inode already |
| Hazards.EmptySealMixesFiles | server/logline_server/main.py:322-343 | A concrete run of an ephemeral source in which the no-op answer to a seal rename without descriptor lets a late byte truncate and corrupt the next live file |
| Hazards.UnsyncedSealMixesFiles | server/logline_server/main.py:346-354 | A concrete run: an orphan seal is acknowledged although the directory sync failed, the server crashes and comes back with the old file under the basename, and the new segment reconnects and appends its bytes to it |
| Rollback.RollbackPossibleExactly | server/logline_server/main.py:324-354 | After a rename that moved a file, a crash can bring the old entry back if and only if the directory sync after it failed |
| Rollback.CrashCorruptsExactly | agent/logline_agent/coordinator.py:238-251 | After a crash, whatever it cuts, loses or brings back, some continuation without a further hazard leaves a file that begins no local inode if and only if a segment that reconnects or reopens without comparing finds under its target a file that does not begin its inode |
| Rollback.SyncedRunsNeverRollBack | server/logline_server/main.py:342-354 | Once what a crash may leave is part of the present directory, and as long as no directory sync fails, no crash can bring back an entry a rename has moved or replaced |
| Hazards.FrameHarmsExactly | server/logline_server/main.py:240-254 | For a single frame that is accepted, acknowledged or not, in a state satisfying the invariant: that frame itself takes bytes from a file, or gives it bytes that are not its own inode's, if and only if the segment was sealed as the fixed orphan without a descriptor, there is a live file, and the frame is not a longer beginning of that file's inode |
| Detached.DetachedFrameCorruptsExactly | server/logline_server/main.py:240-254 | For every frame that creates a file under the live name through a connection without descriptor, acknowledged or not: some continuation without a further hazard leaves a file that begins no local inode - and then the live file can be that file - if and only if the frame clashes with a segment that is past its handshake on the live name |
| Hazards.SealKeepsTrackExactly | server/logline_server/main.py:322-343 | After an acknowledged seal rename the server tracks the name the agent means if and only if the connection had a descriptor |
| Hazards.SealNameExistsExactly | agent/logline_agent/coordinator.py:291-315 | After `_rename` to a fresh seal name, the name exists if and only if the rename was delivered and the segment had shipped something; the agent goes on either way |
| Hazards.RenameKeepsLinksExactly | server/logline_server/main.py:324-340 | A rename leaves every inode linked if and only if its destination did not exist |
| Sessions.OverlappingHandlersAgree | server/logline_server/main.py:217-295 | Any number of connections with descriptors on one inode, fed by one source in any interleaving, keep it a growing prefix of the source and every position within it, whatever other connections create, rename or close in the directory |
| Sessions.AcceptedFramesTile | server/logline_server/main.py:237-295 | With one handler per inode at a time, every file is its initial content followed by the accepted payloads in order, contiguous, no byte twice; and each position is the file length |
| Sessions.ConnectionTracks | server/logline_server/main.py:237-257 | Over any frames of a connection that owns its names, once the descriptor is open the tracked name is the name of its inode |
| Sessions.RenameTracksExactly | server/logline_server/main.py:298-343 | An accepted rename keeps the tracked name on the descriptor's inode if and only if it does not move another file onto that name |
| Sessions.AppendLandsInTrackedFile | server/logline_server/main.py:287-293 | An append then extends the file under the tracked name and no other file |
| Sessions.RenameIsIdempotent | server/logline_server/main.py:298-343 | Repeating an accepted rename frame is accepted and changes neither directory, contents nor tracked name |
| Sessions.LateCreationLeavesGap | server/logline_server/main.py:252-253 | A creating frame that is applied late truncates the file, and the next frame of the current handler leaves a gap |
| Wire.ReceivesPrinted | server/logline_server/main.py:440-480 | A printed command, whatever follows it, is received as it was sent, and exactly its bytes are used up |
| Wire.ReceivesAllPrinted | agent/logline_agent/client.py:118-135 | Every sequence of commands, with or without (possibly empty) payload, comes back as it was sent with nothing left over |
| Wire.CutCommandIsHarmless | server/logline_server/main.py:440-480 | A stream cut anywhere inside a command yields nothing, or a bare word without metadata and payload |
| Wire.ReadsPrintedReply | agent/logline_agent/client.py:137-160 | The client reads every reply as the server printed it |
| Wire.ReplySpelled | server/logline_server/main.py:483-493 | The two replies byte by byte: `ok`, or `ok` and a size, a newline, and that many bytes of JSON |
| Wire.SizeSpelled | agent/logline_agent/client.py:118-135 | Sizes are decimal ASCII digits without leading zeros: 0 and 1048576 written out |
| Requests.TornCommandHasNoEffect | server/logline_server/main.py:237-259 | A stream that ends strictly inside a command has exactly the effect of the complete commands before it, on files, connection and acknowledgements |
| Requests.WholeStreamIsServed | server/logline_server/main.py:237-259 | A stream that ends between commands has the effect of all of them up to the first rejected one |
| Requests.AgentDataIsDataFrame | agent/logline_agent/client.py:93-105 | What `send_data` sends, compressed or not, is accepted exactly when the offset is the descriptor's position (0 for a new file) and then writes exactly the bytes given |
| Requests.AgentRenameIsRenameFrame | agent/logline_agent/client.py:107-116 | What `send_rename` sends between acceptable names is the rename frame the protocol means |
| Requests.DataCommandIsShortest | agent/logline_agent/client.py:93-105 | A data frame carries as many bytes as the shorter of content and gzip has, says gzip if and only if gzip is strictly shorter, and otherwise carries the content itself |
| Requests.DataSpelled | agent/logline_agent/client.py:118-135 | A data command byte by byte: the word, the two sizes, metadata and a newline, payload |
| Requests.RenameSpelled | agent/logline_agent/client.py:118-135 | A rename command byte by byte |
| Requests.AnyCodecIsUndone | server/logline_server/main.py:270-283 | A frame packed by gzip, lzma or zst, given its inverse, does exactly what the same content does unpacked, and is accepted if and only if its offset is the next one |
| Requests.DataAcceptedExactly | server/logline_server/main.py:239-289 | Whatever the command: a data command is accepted if and only if it carries some content (metadata an object, payload there and unpackable) for the next offset of the connection |
| Requests.AcceptedAppend | server/logline_server/main.py:284-295 | Then the content is written at the descriptor, which moves behind it, and no other byte, inode or entry changes |
| Requests.AcceptedFirstFrame | server/logline_server/main.py:240-254 | A first frame leaves exactly its content under the tracked name and every other file as it was |
| Requests.RenameAcceptedExactly | server/logline_server/main.py:298-343 | Whatever the command: a rename is accepted if and only if both names are strings that cannot leave the directory and one of them exists; it then moves at most that one entry, no content, and the tracked name exactly if it is the one moved |
| Requests.RejectedCommandChangesNothing | server/logline_server/main.py:237-259 | A rejected command changes neither files nor connection, except that a first data frame may have created its file |
| Requests.StopsAtFirstRejected | server/logline_server/main.py:237-259 | A session acknowledges the longest beginning of its commands in which each is accepted after the ones before it, and ends in the state the first other one leaves |
| Requests.RejectedFirstFrameExactly | server/logline_server/main.py:240-253 | A rejected first frame leaves a stray file if and only if its metadata is an object with offset 0, and then an empty one |
| Delivery.DataCallDelivered | server/logline_server/main.py:237-254 | Serving the bytes of one `send_data` on files named by strings acknowledges it exactly when the protocol's data frame is accepted, and leaves the directories in agreement |
| Delivery.RenameCallDelivered | server/logline_server/main.py:255-257 | The same for `send_rename` between any two names of the path |
| Delivery.HandshakeAgrees | server/logline_server/main.py:217-235 | The same for what a handshake opens and reports |
| Delivery.CutCallNotApplied | server/logline_server/main.py:467-474 | A call whose bytes do not all arrive is not acknowledged and changes nothing |
| Names.RenderInjective | agent/logline_agent/coordinator.py:403-414 | Two names of one path are spelled the same if and only if they are the same name |
| Names.NamesGrow | agent/logline_agent/coordinator.py:166-172 | A final name is the seal name, a dot and the hash; a dated orphan is the seal name and `.orphan`, the fixed orphan the basename and `.orphan` |
| Names.NamesSpelled | agent/logline_agent/coordinator.py:403-414 | One name of each kind written out in full |
| Names.RenderSafe | server/logline_server/main.py:365-374 | Every name the agent makes from an acceptable basename is acceptable to the server |
| Markers.WaitingIsoExact | agent/logline_agent/marker_watcher.py:34-36 | A `.waiting` marker is recognised exactly when the name, but for one trailing newline, is the one lh-logrotate writes for that timestamp |
| Markers.DoneMarkExact | agent/logline_agent/marker_watcher.py:37-39 | The same for the two markers that reveal the hash |
| Markers.FinalNameIsMarked | agent/logline_agent/marker_watcher.py:4-10 | A marker reveals timestamp and hash if and only if it is the final name the agent makes of them, with the suffix of a compressed or an uploaded file |
| Markers.SealNameIsMarked | agent/logline_agent/marker_watcher.py:4-10 | A marker reveals a timestamp if and only if it is the seal name the agent makes of it, with the suffix of a waiting file |
| Markers.LearnAllExtends | agent/logline_agent/marker_watcher.py:48-60 | A scan forgets and revises nothing, keeps what is known well formed and listed once, and adds only what some listed name says |
| Markers.LearnAllComplete | agent/logline_agent/marker_watcher.py:48-60 | Everything a listed name says is known after the scan: the timestamp of each `.waiting` marker, and a hash for each timestamp that has one |
| Markers.FirstHashIsLearnt | agent/logline_agent/marker_watcher.py:57-60 | Of several hashes listed for a timestamp that had none, the first is learnt |
| Markers.LearnAllInOrder | agent/logline_agent/marker_watcher.py:48-60 | Names are learnt in the order listed: what any beginning of the listing adds comes before what the rest adds, and the rest does not revise it |
| Markers.NewestIsLast | agent/logline_agent/marker_watcher.py:62-68 | The search fails exactly when every timestamp is consumed, and otherwise finds the last first-seen one that is not |
| Markers.AllLearnt | agent/logline_agent/marker_watcher.py:62-68 | If nothing unconsumed is known after a scan, no listed `.waiting` marker has an unconsumed timestamp |
| Markers.MarkerWatcher.Scan | agent/logline_agent/marker_watcher.py:48-60 | The object knows afterwards what it knew and what the listing adds, as `LearnAllExtends`, `LearnAllComplete`, `FirstHashIsLearnt` and `LearnAllInOrder` say; nothing changes when the directory cannot be listed |
| Markers.MarkerWatcher.NewestUnconsumedWaiting | agent/logline_agent/marker_watcher.py:62-68 | Scans once, then returns the last first-seen unconsumed timestamp |
| Markers.MarkerWatcher.Sha13For | agent/logline_agent/marker_watcher.py:70-74 | Scans only while the hash is unknown, and returns it if it is known then |
| Durability.AckedSealIsDurable | server/logline_server/main.py:324-354 | After an acknowledged rename of the connection's own file with both syncs done, no crash at any later time loses the new name or a byte written before, whatever other connections do meanwhile short of touching that file |
| Durability.SealIsDurableExactly | server/logline_server/main.py:328-354 | For a fresh name and unsynced bytes, an acknowledged rename survives every crash if and only if both fsync calls succeeded; failures are only logged |
| Durability.AcceptedRenameSyncsExactly | server/logline_server/main.py:328-354 | After any accepted rename, a repeated one that moves nothing included, and while an older directory could still come back: every crash leaves the present directory if and only if the directory sync succeeded |
| Server.RecvCommand | server/logline_server/main.py:440-480 | Reads off the stream exactly what the specification of reception says, and leaves the rest |
| Server.RecvBody | server/logline_server/main.py:467-480 | The same for metadata and payload |
| Server.Connection.constructor | server/logline_server/main.py:215-222 | A connection starts with the file open at its end, or with none |
| Server.Connection.Report | server/logline_server/main.py:226-235 | Reports the length, and the hash of the leading bytes unless there are none |
| Server.Connection.ApplyData | server/logline_server/main.py:265-295 | The files and the connection afterwards, and whether the frame was accepted, are those of the specification the theorems are about |
| Server.Connection.HandleData | server/logline_server/main.py:239-254 | The same, with the file created on the first frame |
| Server.Connection.HandleRename | server/logline_server/main.py:298-343 | The same for a rename, together with what has reached the disk for each outcome of the two fsync calls |
| Server.Connection.Serve | server/logline_server/main.py:237-259 | The whole command loop leaves files, connection and acknowledgements as the specification of a served stream says |
| Server.ClientConnection.WriteCommand | agent/logline_agent/client.py:118-135 | Writes exactly the printed form of the command |
| Server.ClientConnection.SendData | agent/logline_agent/client.py:93-105 | Writes the data command, compressed only if that is shorter |
| Server.ClientConnection.SendRename | agent/logline_agent/client.py:107-116 | Writes the rename command |
| Server.ClientConnection.AwaitReply | agent/logline_agent/client.py:137-160 | Reads exactly one reply off the stream |
| Network.OtherStepRely | agent/logline_agent/coordinator.py:98-108 | While others act, a segment finds its own state as it left it, but for a seal request, a cancellation by the coordinator and a dropped connection; the coordinator finds its own untouched |
| Network.Net.Yield | agent/logline_agent/coordinator.py:101-108 | Any number of steps of other tasks, a cancellation included, may happen at an `await`; what each task relies on still holds, and the clock does not go back |
| Network.TraceIsRun | agent/logline_agent/coordinator.py:112-127 | What the tasks do one step after the other is a run of the protocol |
| Calls.SendOutcomes | agent/logline_agent/client.py:118-160 | The agent cannot tell a lost call, a lost acknowledgement and a delay apart, and the server cannot tell whether its acknowledgement arrives; over a broken connection, or if the frame is rejected, nothing happens on the server |
| Calls.DeliveredSend | server/logline_server/main.py:265-295 | A delivered frame is in the file at its offset if the descriptor is there, and stream and descriptor stand behind it; otherwise nothing changes and the connection is lost |
| Calls.DelayedIsDelivered | server/logline_server/main.py:265-295 | A delayed frame, once applied, has done to the files what a delivered one does at once |
| Calls.RenameOutcomes | server/logline_server/main.py:298-343 | Each of the three renames moves the segment's own target if it is delivered and one of the names exists, and touches no content and no other entry; the directory counts as synced only if the sync succeeded |
| Calls.QuietSteps | agent/logline_agent/coordinator.py:112-127 | No other step but a delayed frame and a crash changes anything on the server |
| Calls.WhoWritesSegments | agent/logline_agent/coordinator.py:98-108 | A segment is changed by its own steps, a seal request, a cancellation and the loss of connections in a crash, and by nothing else |
| Calls.CrashLeavesExactly | server/logline_server/main.py:346-354 | A crash can leave any part of any directory state since the last sync with any prefix of every file, and nothing else |
| Agent.Segment.ReadPrefix | agent/logline_agent/coordinator.py:317-319 | Returns the leading bytes of the inode and leaves the stream behind them |
| Agent.Segment.Connect | agent/logline_agent/coordinator.py:199-236 | The segment ends up streaming in step with the server under the basename. A stale file that is found is not left in place: the server has been asked to put it aside. The segment fails only if the first call is not answered, or the request to put the file aside is not acknowledged, or it is and the second call is not answered; it ends as cancelled only if it is |
| Agent.Segment.FirstHandshake | agent/logline_agent/coordinator.py:200-214 | The test in the code treats the remote file as stale exactly when the specification does, in the world in which the call is answered, and the prefix it compared is on record |
| Agent.Segment.SealStaleRemote | agent/logline_agent/coordinator.py:216-236 | The rename is asked for in any case; if it is acknowledged, the next call answered and nothing cancelled, the segment streams in step at the reported length |
| Agent.Segment.Reconnect | agent/logline_agent/coordinator.py:238-261 | Ends connected to the current target, in step if the caller seeks to the reported length, keeping a seal request that comes meanwhile |
| Agent.Segment.DrainAvailable | agent/logline_agent/coordinator.py:263-289 | Terminates for a source that does not grow beyond some length; if it had to reconnect it did so once and ends in step at the length the server reports; otherwise it ends at the end of the source, in step if it sent anything or started in step; it reports to have sent something exactly if a frame was acknowledged; only a fail-closed segment gives up |
| Agent.Segment.SendData | agent/logline_agent/client.py:93-105 | One call is one step of the protocol with the outcome the network has in store for it, and counts as acknowledged exactly if it was delivered, accepted and acknowledged |
| Agent.Segment.DrainRound | agent/logline_agent/coordinator.py:266-287 | One frame carries the next 2^20 bytes, or all there are |
| Agent.Segment.CompleteAtEnd | agent/logline_agent/coordinator.py:263-289 | In a hazard-free run, being in step at the end of the source over a working connection means the server has the whole source |
| Agent.Segment.ShippedIsThere | agent/logline_agent/coordinator.py:263-289 | In a hazard-free run, what a segment in step over a working connection has shipped is in the server's file under the segment's name |
| Agent.Segment.Relabel | agent/logline_agent/coordinator.py:152-155 | Called only once everything readable is acknowledged (or a call failed). The server is asked for the requested name in any case. The segment then has it as its second target, is sealed, has lost no ground in the stream, and fails closed exactly if it is an ephemeral orphan; only such a segment ends instead |
| Agent.Segment.AdoptDestination | agent/logline_agent/coordinator.py:309-315 | The destination becomes the target whether or not the rename was applied |
| Agent.Segment.DoSeal | agent/logline_agent/coordinator.py:140-155 | Flushes, then asks the server for the seal name and relabels as `Relabel` says: every byte readable when it was called is acknowledged before the seal unless a call failed |
| Agent.Segment.LivePhase | agent/logline_agent/coordinator.py:129-138 | Ships under the basename and ends only when a seal is requested or it is cancelled; everything readable at the start is acknowledged then unless a call failed. As long as it waits, every round ships a frame or sleeps an interval; a request that is there from the start ends it at once |
| Agent.Segment.DrainUntilIdle | agent/logline_agent/coordinator.py:174-183 | Ends normally only when more than the idle time has passed since the call and since the last frame that was acknowledged in it, with everything in the inode acknowledged unless a call failed, in the sealed state; and as soon as it looks after that: it still waits only if a frame came or the idle time is not over; gives up only in fail-closed mode, and is cancelled only if it is |
| Agent.Segment.DrainUntilSha13 | agent/logline_agent/coordinator.py:185-195 | Returns a hash only if a marker has shown it for this timestamp, and after a drain; without being cancelled it goes on without one only as long as it has looked every interval, no listing it looked at has shown a hash for the timestamp, and none is known |
| Agent.Segment.Sha13For | agent/logline_agent/marker_watcher.py:70-74 | Looks exactly if the hash is unknown, and finds it if the listing shows it |
| Agent.Segment.Finalize | agent/logline_agent/coordinator.py:166-172 | Called only once everything readable is acknowledged (or a call failed); asks the server for the final name and ends with exactly the three targets live, seal name, final name, acknowledged or not |
| Agent.Segment.ClosingPhase | agent/logline_agent/coordinator.py:157-172 | A normal end is under the seal name for an orphan and, after asking the server for it, under the final name with the known hash otherwise, with every byte that was there at the start acknowledged unless a call failed, and in the server's file under the final name if it came in step. It gives up only in fail-closed mode, is cancelled only if it is, and as long as it waits, no listing it looked at has shown the hash, or the orphan has got a frame or is not idle long enough |
| Agent.Segment.Run | agent/logline_agent/coordinator.py:112-127 | However it goes the segment ends closed, and it ends only for a reason. A normal end means the names above, that the server was asked for them, and that every byte that was in the inode when it started is acknowledged or it had to reconnect; in a run without hazards, a segment named by a marker that never had to reconnect has left at least all those bytes in the server's file under the final name. It gives up only as an ephemeral orphan that has asked for its name, fails only if it was refused a connection as in `Connect`, is cancelled only if it is, and otherwise is still at work: unsealed only if no seal is requested, and under the name of a marker only if its hash is not known |
| Coordinator.PathCoordinator.LearnIsoDt | agent/logline_agent/coordinator.py:420-432 | A timestamp without the orphan flag is the newest unconsumed one known at the moment it is returned; the orphan flag means that no unconsumed one was known at the start, that it has looked once in every interval of the whole grace period, and that no listing showed an unconsumed one |
| Coordinator.PathCoordinator.RequestSeal | agent/logline_agent/coordinator.py:405-414 | The live segment is asked for `<basename>.<iso>`, `<basename>.<iso>.orphan` or, ephemeral and without marker, `<basename>.orphan` |
| Coordinator.PathCoordinator.WaitSealed | agent/logline_agent/coordinator.py:101-108 | Returns normally if and only if the segment has sealed itself or is dead, at once if it has already; gives up only on a segment that runs unsealed after the given number of sleeps |
| Coordinator.PathCoordinator.SealLive | agent/logline_agent/coordinator.py:403-418 | The live segment, and no other, has been asked to seal itself, under the timestamp of an unconsumed marker or, after looking in vain for the whole grace period, as an orphan, with the name that fits; it is sealed or dead afterwards unless the wait was given up |
| Coordinator.PathCoordinator.OnNewInode | agent/logline_agent/coordinator.py:388-401 | If the opened inode is not the remembered one, there is a new live segment reading exactly that inode; its predecessor, if any, was asked to seal itself as in `SealLive`, is sealed or dead, among the closing ones, and its timestamp among the consumed ones. If it is the remembered one, live and closing segments, requests and consumed timestamps stay. It fails only if nothing can be opened or the wait for the seal was given up |
| Coordinator.PathCoordinator.DropDeadLive | agent/logline_agent/coordinator.py:367-375 | A live segment that ended unasked is dropped together with the remembered inode, and nothing else is |
| Coordinator.PathCoordinator.ReapClosing | agent/logline_agent/coordinator.py:460-462 | Exactly the ended segments leave the closing set |
| Coordinator.PathCoordinator.Iteration | agent/logline_agent/coordinator.py:364-380 | A live segment that is dead counts as none and its inode as forgotten. After a round in which neither the inode seen nor the one opened is the remembered one, there is a new live segment on the opened one and its predecessor, if any, is sealed or dead and closing; after any other, live segment, requests and consumed timestamps stay and only ended segments leave the closing ones. A dead live segment is thus replaced at once, without a seal request or a consumed timestamp. It fails only as `OnNewInode` does |
| Coordinator.PathCoordinator.Cancel | agent/logline_agent/coordinator.py:383-386 | The segment has been asked to stop; the coordinator and every other segment it relies on are as they were |
| Coordinator.PathCoordinator.AwaitEnd | agent/logline_agent/coordinator.py:474-478 | Reports success if and only if the segment has ended |
| Coordinator.PathCoordinator.Shutdown | agent/logline_agent/coordinator.py:381-386 | Every segment still known has been asked to stop and has ended, unless one that has been asked does not end as long as we wait |
| Coordinator.PathCoordinator.Run | agent/logline_agent/coordinator.py:361-386 | Rounds follow each other, an interval apart, until it is cancelled or a round fails that saw an inode; however it ends the segments are shut down as `Shutdown` says |
| Coordinator.PathCoordinator.NothingLeftRunning | agent/logline_agent/coordinator.py:381-386 | In every run those were all: no segment outlives its coordinator |

## Left out

- Sockets, TLS, asyncio scheduling and timeouts: a call has one of four outcomes, and other tasks act at each `await`.
- gzip, lzma, zst and JSON: functions with an inverse; SHA-1 is any function, assumed to tell prefixes apart only where two are compared.
- The handshake command itself, its header fields, authentication, the destination directory and HTTP detection: checks without state.
- Configuration, logging, telemetry, and the extra sleep for the agent's own log.
- Classification of ephemeral sources by globbing: `ephemeral` is an input.
- Unicode digits in marker names and in the word sizes of commands, negative or decorated reply lengths, and the stream reader's line limit: ASCII digits only.
- Cancellation between the remote calls of one round: a task notices it between rounds. In the step machine a segment may end at any step.
- Clocks: any well-formed timestamp, and a clock that never goes back.
- Endless waiting: a loop that may wait for ever is looked at for any given number of rounds, after which it is still waiting; what holds then is part of its contract.
- Errors of `open` and `stat` other than a missing file: the coordinator ends when it cannot open the file it saw.
- Agent restart with old markers on disk, shrinking sources, several agents on one path, and renames applied after their connection was closed: excluded, see above.
- Durability of file creation and of data frames before the next rename: the code promises none.
- Agent.Segment.DrainAvailable: ends early after a reconnect, as the code does, so completeness is claimed for a drain without failure only.
- Agent.Segment.Finalize: after a lost rename the final name need not exist on the server, as the code never sends it again.
- Detached.DetachedFrameCorruptsExactly: assumes that no delayed frame is on its way to the file the frame replaces.
- Durability.AckedSealIsDurable: is proved of its own model of the disk, which knows what has been synced; the step machine allows every crash of that model and more, so that the other results do not depend on file syncs. Assumes that the descriptor followed the rename; a rename of another file syncs the directory only.
