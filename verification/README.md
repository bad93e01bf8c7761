# Conducting a chat across several providers

omni lets one conversation move between several model CLIs. Each session is run
by a conductor: one thread that queues what the user says, hands it to whichever
CLI is in charge, records everything in an append-only log, moves to another CLI
when one fails, and rebuilds the conversation when a CLI runs out of context.
This project models that conductor together with the two durable things it owns,
the daemon machinery that carries requests to it and events away from it, the
client that talks to the daemon, and the catalog that decides which model answers
a number on the dial. It states what each of them promises, and proves it.

## How the conductor is modelled

`Session` is the durable side: the log, the metadata file, and a datatype of every
write the conductor can make. A session's life is a journal of writes. `Allowed`
says when a write may be made, `Legal` which journals that gives, and `Replay`
what is on disk after one. A crash leaves a prefix of the journal, and a prefix
of a legal journal is legal, so every lemma about legal journals speaks about
every durable-write boundary of every run:

- `Delivery`: the transactional outbox. Every accepted message is pending, or
  recorded by exactly one opening event with its own text.
- `Turns`: turn numbers, across crashes.
- `Episodes`: how much one context recovery may do, when one is handed off again,
  and when a restart finds one that nothing can deliver.
- `Watermarks`: what a returning provider still has to be told, and which providers'
  watermarks can be trusted.
- `Transcripts`: nothing asked is lost when recovery replaces its own retry.
- `Mishaps`: journals that end where one might not expect, with every record the
  conductor writes and providers that do what their adapters do.

`Conductor.Chat` is the conductor itself, a class with the program's own state
that is updated in place. Its queues are grouped in `line`, its runners in `crew`;
`journal`, `tally` and `handed` are history nobody reads. Every durable write goes
through `Save`, which may fail, and failing ends the session as it does in the
program. A crash after some write is the same thing on disk as that write's
successor failing, so a run of this class covers every crash as well, and `Lives`
runs one process after another over one disk. What providers do is left open at
every point: they may take a message at once, for a later turn, or only confirm it
later; refuse it for any reason; come up or not, under any session id; lose their
session; take a setting or not; report anything at any time.

`Valid` is what holds between any two wakes:

- the journal is legal, so all of the above applies;
- the queue in memory mirrors the one on disk, message for message, and in order
  but for the messages recovery made up itself;
- accepted texts are, in order, those of ended turns, then those being answered,
  those awaiting an echo and those in the outbox, in a session no recovery has
  rewritten, unless one of the two lapses of `Conducting.Lapse` has happened;
- the message a recovery waits for is delivered, awaited or next in line. A process
  that opened the session with that message in front keeps it so over every wake,
  whatever happens (`Conductor.Chat.Handle`, `Conductor.Chat.Serve`); and what it
  leaves behind is in front again unless recovery named a message behind another,
  which takes a provider that echoes (`Conductor.Live`, `Conductor.Lives`);
- nothing was ever handed to a runner that recovery did not let through;
- epochs are never reused, the running conversation is the one its provider is
  bound to, and once it has taken its seed it holds all history up to the ceiling
  its mark may rise to, unless its provider's watermark is broken;
- how each runner takes messages is remembered (`habits`), with every slip: a runner
  that changed its way, was replaced in the middle of a turn, or confirmed a turn
  open while another was unanswered (`Manners`).

The reactions are mutually recursive, as in the program. They are proved to
terminate by a lexicographic measure: how much recovery is still to come, how many
providers are left to fall back on, and a constant per method. `Conducting` and
`Manners` hold the facts about values the methods rest on.

`Stragglers` says once more, as a function of the wakes handled and of what the
world answers, what the conductor does between recoveries, and uses it for a
statement about two runs: output of replaced runners, wherever it falls, changes no
queue, no turn, no runner and no dial. The class's own steps on the queues are
proved to be that function's.

## The rest

- `Broadcasting`: replay joined to the live stream, as interleaved steps of the
  conductor, attaching clients and closing connections.
- `Admitting`: ticket lanes under one admission gate.
- `Gating`: lifecycle exclusion with gates reclaimed by reference count.
- `Multiplexing`: the client's pending map under replies, timeouts and disconnects.
- `Reading`: the bounded request reader.
- `Choosing` and `Catalogs`: the price and score frontier, the dial spread over it,
  and the catalog validator whose guarantee carries through to every choice.

## Where the program does not do what one might expect

Each of these is a property that fails, with a lemma that shows it and the exact
condition under which it holds.

1. Letting a native session go takes two metadata writes, the id first and the mark
   second (`crates/omni-core/src/chat.rs:1856-1857`). A crash between them leaves
   the old mark without its session, and the session opened in its place is not
   told what lies under the mark: `Mishaps.CrashInsideRelease`. A fresh session
   is told everything if and only if no history lies at or under the mark it starts
   from: `Watermarks.FreshCompletesIff`. A provider's watermark can be trusted if
   and only if the provider had a fresh start each time since it was left so, or
   bound to a new session or marked ahead of its seed: `Watermarks.TrustedIff`. The
   history restarted, the session let go with its mark, and the whole history taken
   in by a session opened anew are fresh starts. A mark falls only for a provider
   whose session was let go, or whose id could not be: `Watermarks.FallsOnlyLetGo`.
   A crash between two wakes costs nothing: `Conducting.CrashBetweenWakes`.
2. Agy takes its history only with the next message, and is bound to a new session
   before it holds anything (`crates/omni-core/src/chat.rs:2004-2013`). With that
   message it takes in what it was handed, and its watermark is as good as any
   other: `Runners.SeedHolds`, `Runners.WholeSeedCovers`, `Conductor.Chat.TakeSeed`.
   But if the process stops before that message, the session is resumed, and a
   resumed session is told neither what lies at or under its provider's mark nor
   what the provider said itself, although that was in an earlier session:
   `Mishaps.CrashBeforeDeferredSeed`. Such a session is told everything if and
   only if there is no history of either kind: `Watermarks.UnseededCompletesIff`;
   and any session is, if and only if it holds all it is presumed to hold:
   `Watermarks.ResumeCompletesIff`. While one process has the session nothing but
   such a bind or mark costs a provider its watermark, and it costs no other
   provider's: `Watermarks.TrustKept`, `Conductor.Chat.Handle`, `Conductor.Chat.Run`.
3. Recovery names the head of the outbox when it goes on from a compaction without a
   retry, from the message that continues a session, or from one queued message to
   the next (`crates/omni-core/src/chat.rs:1315-1323`, `1346-1357`). If an earlier
   message is still awaiting its echo, that message is ahead of it on disk, and after
   a restart ahead of it in the outbox too, where the recovery gate holds everything
   up. With claude-code-cli this takes an echo that is not recognised, as its adapter
   allows for, and a turn that ends all the same: `Mishaps.WaitsBehindAnEcho`. At the
   end of a compaction it takes a runner that both echoes and compacts, which the
   runner interface allows and no adapter is. Wherever memory has the order of the
   disk, naming the head can be taken up after a restart if and only if no echo is
   awaited: `Episodes.NamedAtFrontIff`, `Conductor.Chat.NameHead`. Otherwise a
   reopened session hands nothing over at all: `Conducting.WedgedAfterReopening`.
   Nothing else can cause it: `Episodes.FrontKept`.
4. A session opened in the middle of compaction has no deadline left and hands off
   at once, before its launch is handled (`crates/omni-core/src/chat.rs:547-571`).
   If that handoff's message is taken and its turn still on when the launch comes,
   the launch finds it cut short and hands off again (`1446-1450`), as it may with
   codex-app-server: `Mishaps.HandoffTwice`. So may any episode that began before the
   launch was handled. A launch hands off again if and only if it finds recovery's
   message taken by a turn that has not come to its own end, or a compaction under
   way: `Conductor.Chat.LaunchOnce`, `Episodes.AgainIff`, `Episodes.MovesBackIff`.
   From any point of an episode to any later one, whichever processes had it, it
   compacts no more than once and opens as many fresh sessions as the stages in
   between say, and at most two more for every launch that found its message cut
   short: `Episodes.Bounded`. There is at most one such launch to a process:
   `Episodes.RelaunchedOnce`, `Episodes.OnceByOneProcess`.
5. Order can be lost. A message taken while another awaits its echo, or into the
   group of an earlier turn, is recorded ahead of it;
   `Conducting.DeliveryKeepsOrderIff` and `Conducting.EchoKeepsOrderIff` say exactly
   when one step does. Over whole runs it takes a slip: a runner that changes how it
   takes messages, one replaced with its turn still on (a launch that finds it stale,
   `crates/omni-core/src/chat.rs:754-767`, or a death not yet heard of, `1529-1537`),
   or a turn confirmed open while another is unanswered. Without a slip and without
   a recovery no message overtakes another, and with failover on none is given up:
   `Conductor.Chat.Handle`, `Conductor.Chat.Run`.
6. A lifecycle gate may stay on the map after everyone has gone:
   `Gating.GateLeftBehind`. After any interleaving there is a gate under a name if
   and only if somebody waits or operates under it or the last sweep of that name
   came while another thread still held its clone: `Gating.LeftBehindIff`.

## Model

| member | source | states |
|---|---|---|
| Delivery.AcceptedIsNeverLost | crates/omni-core/src/session/meta.rs:349-366 | wherever a run stops, a message once accepted is pending with its text or recorded by exactly one opening event with its text |
| Delivery.CrashAnywhere | crates/omni-core/src/session/meta.rs:200-215 | a crash after any durable write leaves a disk on which all of this still holds |
| Delivery.Always | crates/omni-core/src/session/meta.rs:388-418 | pending ids are distinct and carry their own texts; no id opens two events; every id is pending, opened, or a retry of recovery's own that was replaced |
| Delivery.IssuedGrows | crates/omni-core/src/session/meta.rs:350-366 | ids are never issued twice and keep their texts; an id given to a caller is never one recovery makes up |
| Delivery.RecoverStep | crates/omni-core/src/session/meta.rs:307-333 | the stage, its message and the message it supersedes change in one write without losing any other message |
| Turns.Always | crates/omni-core/src/session/store.rs:107-120 | across crashes the n-th START carries turn n, other events that are not late carry the turn of the last START, and late ones no more than that |
| Turns.NeverBackwards | crates/omni-core/src/chat.rs:1621-1643 | apart from late output no later record has a smaller turn, and a later START always has a greater one |
| Episodes.Bounded | crates/omni-core/src/chat.rs:1156-1193 | from any point of an episode to any later one, across every crash and reopening: at most one compaction, and exactly as many fresh sessions as the stages passed say, but for at most two more for each launch that found its message cut short, and none yet for one that has still to hand off again |
| Episodes.RelaunchedOnce | crates/omni-core/src/chat.rs:754-767 | over any stretch of any run, such launches are no more than the processes that opened the session in it, but for one the stretch may begin before |
| Episodes.OnceByOneProcess | crates/omni-core/src/chat.rs:754-767 | while one process has the session there is at most one |
| Episodes.Forward | crates/omni-core/src/chat.rs:1294-1366 | whichever processes had it, an episode never moves back a stage but where it is handed off again |
| Episodes.AgainIff | crates/omni-core/src/chat.rs:1386-1452 | a second handoff is open to an episode if and only if the launch of this process found recovery's message taken and its turn cut short, and nothing has come of it yet |
| Episodes.MovesBackIff | crates/omni-core/src/chat.rs:1446-1450 | a handoff made again needs such a launch, and after such a launch a handoff is one made again unless it replaces a retry |
| Mishaps.HandoffTwice | crates/omni-core/src/chat.rs:547-571 | codex compacts when the process stops; the next one hands off, its message is taken, and its launch hands off again: the whole journal, which is one episode with two fresh sessions at a stage that says one |
| Episodes.FrontKept | crates/omni-core/src/chat.rs:1557-1562 | every write but one that names a message behind the front leaves the message recovery waits for first in line or delivered |
| Episodes.NamedAtFrontIff | crates/omni-core/src/chat.rs:1315-1323 | recovery that goes on with the head of the outbox can be taken up after a restart if and only if no echo is awaited, wherever memory has the messages in the order of the disk |
| Mishaps.WaitsBehindAnEcho | crates/omni-core/src/chat.rs:1346-1357 | claude runs out of room, is handed off and continued, and the echo of the message that continued it is not recognised: the whole journal, after which a restart finds recovery waiting for the second of two pending messages |
| Conducting.GateAfterReopening | crates/omni-core/src/chat.rs:1557-1562 | the head of a reopened outbox may pass the recovery gate if and only if the message waited for was in front when the session was left |
| Conducting.WedgedAfterReopening | crates/omni-core/src/chat.rs:1557-1562 | and if it was not, no flush of the reopened session hands anything over, whoever is up and however long the queue |
| Watermarks.Always | crates/omni-core/src/chat.rs:1470-1481 | at every durable-write boundary, a bound session of a provider whose watermark is not broken holds all history up to the mark and all its provider produced since |
| Watermarks.TrustedIff | crates/omni-core/src/chat.rs:1846-1874 | a provider's watermark is unbroken if and only if the provider had a fresh start each time since it was bound to a new session or marked ahead of its seed, or reopened half let go; taking in the whole history is one; no other provider's binds or crashes matter |
| Watermarks.TrustKept | crates/omni-core/src/chat.rs:2004-2013 | while one process has the session, only being bound to a new session or marked ahead of its seed breaks a provider's watermark |
| Watermarks.FallsOnlyLetGo | crates/omni-core/src/session/meta.rs:243-259 | over any stretch of any run, crashes included, a provider's mark falls only if its session was let go in between |
| Watermarks.ResumeCompletes | crates/omni-core/src/chat.rs:2067-2077 | a resumed session lacks nothing a fresh one would be told, once it is handed what lies above its mark |
| Watermarks.ResumeCompletesIff | crates/omni-core/src/chat.rs:2061-2077 | resuming completes a session if and only if it holds all it is presumed to hold |
| Watermarks.UnseededCompletesIff | crates/omni-core/src/chat.rs:2004-2013 | resuming a session bound before it took its seed completes it if and only if no history lies at or under the mark and none is the provider's own |
| Watermarks.NeverToldTwice | crates/omni-core/src/chat.rs:2061-2077 | once a provider has caught up, nothing logged until then is ever handed to it again, over any further run and any crashes, unless its session is let go |
| Watermarks.FreshCompletesIff | crates/omni-core/src/chat.rs:2043-2059 | a fresh session is told everything if and only if no history lies at or under the mark it starts from |
| Mishaps.CrashInsideRelease | crates/omni-core/src/chat.rs:1854-1864 | codex answered, the prompt was changed, and the process stops between the two writes of the release: the whole journal, after which the question is told to no later session |
| Mishaps.CrashBeforeDeferredSeed | crates/omni-core/src/chat.rs:2004-2013 | agy lost its session, was bound to a new one, and the process stops before its next message: the whole journal, after which neither question nor answer is ever told to it |
| Transcripts.RetiredIsCarried | crates/omni-core/src/chat.rs:1270-1292 | a retry retired by a handoff was the questions of one turn joined together, and the message that handoff writes holds each of them word for word |
| Transcripts.JoinedContains | crates/omni-core/src/chat.rs:1157-1170 | every part of a joined text is in it word for word |
| Transcripts.HandoffContains | crates/omni-core/src/chat.rs:1270-1292 | a handoff's text holds each text carried over, word for word |
| Mirrors.Synthesize | crates/omni-core/src/chat.rs:1231-1233 | recovery's message goes first on disk but behind the awaited echoes in memory, and both queues keep the same messages and the callers' order |
| Mirrors.SynthesizeAligns | crates/omni-core/src/chat.rs:1231-1233 | the two orders agree exactly when no echo is awaited |
| Mirrors.Retire | crates/omni-core/src/session/meta.rs:388-396 | retiring one message anywhere in the live queue keeps it the mirror of the disk |
| Runners.BenchShrinks | crates/omni-core/src/chat.rs:1063-1070 | setting a provider aside takes exactly it off the dial and leaves the rest in order, and strictly fewer if it was on it |
| Runners.RemoveShrinks | crates/omni-core/src/chat.rs:1013-1030 | removing a provider for good leaves the dial setting it aside would |
| Runners.MarkIsSound | crates/omni-core/src/chat.rs:1470-1481 | a mark up to what the running conversation holds can be trusted |
| Runners.MarkPastHoleIsNot | crates/omni-core/src/chat.rs:1472-1476 | a mark past a late event it never saw cannot, which is what the ceiling is for |
| Runners.ResumedHolds | crates/omni-core/src/chat.rs:1908-1926 | a resumed conversation told what it missed holds everything in scope |
| Runners.OpenedHolds | crates/omni-core/src/chat.rs:1966-1967 | so does a new one told everything |
| Runners.SeedHolds | crates/omni-core/src/providers/antigravity_cli/runner.rs:246-279 | a conversation that takes its seed with the next message then holds everything up to the ceiling |
| Runners.WholeSeedCovers | crates/omni-core/src/chat.rs:1963-1967 | and if it was opened anew, it then holds all it is presumed to hold, whatever became of earlier ones |
| Conducting.FailoverKeepsOrder | crates/omni-core/src/chat.rs:1108-1134 | moving to another provider with a retry keeps every unanswered, awaited and queued text, in order |
| Conducting.ClosingGivesUp | crates/omni-core/src/chat.rs:1121-1134 | without a retry exactly the unanswered texts are given up |
| Conducting.DeliveryKeepsOrderIff | crates/omni-core/src/chat.rs:1650-1651 | taking the head of the outbox keeps the order if and only if it commutes with the texts it is recorded ahead of |
| Conducting.EchoKeepsOrderIff | crates/omni-core/src/chat.rs:924-925 | and so for a confirmation, where only an earlier turn's group can be in the way |
| Conducting.CrashBetweenWakes | crates/omni-core/src/chat.rs:1470-1481 | a crash between two wakes breaks no provider's watermark, and every session bound under an unbroken one still holds all it is presumed to |
| Conducting.FollowsIsLegal | crates/omni-core/src/chat.rs:1311-1366 | every move at the end of a recovery turn is one an episode may make, and a fresh session that fails is never replaced by another |
| Conducting.TurnsRetried | crates/omni-core/src/session/meta.rs:368-385 | unfinished turns return in order under fresh ids, ahead of unconfirmed writes, ahead of the rest, in memory as on disk |
| Conducting.RecoveryWritten | crates/omni-core/src/chat.rs:1195-1235 | after a recovery write the queues agree again and the message recovery waits for is next in line |
| Conducting.LateCrewed | crates/omni-core/src/chat.rs:810-818 | late conversation lowers the ceiling below the hole it makes, so the running conversation still holds all the mark may cover |
| Conducting.TurnMarked | crates/omni-core/src/chat.rs:1470-1481 | a turn's end moves the mark to the ceiling or the end of the log, and the running conversation still holds all the mark may cover, if its seed is in |
| Conducting.SeedHeard | crates/omni-core/src/chat.rs:1563-1569 | a seed taken in keeps everything known of the runners and their marks, and one with the whole history makes its provider's watermark good |
| Conducting.CrewManned | crates/omni-core/src/chat.rs:1997-2013 | a runner adopted after being told everything holds all history in scope, with no ceiling left |
| Conducting.Reopening | crates/omni-core/src/chat.rs:400-405 | what is loaded after reconciling is a queue in which nothing was delivered before |
| Rewinding.FailureInIs | crates/omni-core/src/chat.rs:1417-1444 | the failure read back from the log is that of the last event that counts, if that is a final error |
| Rewinding.HowFarIs | crates/omni-core/src/chat.rs:1397-1452 | a message on record is over, at that END and with that failure, exactly if the turn that took it first ended there on its own; it is cut short exactly if every such end was an interruption or there is none |
| Conductor.Chat.Open | crates/omni-core/src/chat.rs:339-533 | a session opened on any legal journal, wherever it was cut off, is valid, with exactly the undelivered messages in line, nobody up and nothing handed over |
| Conductor.Chat.Restore | crates/omni-core/src/session/meta.rs:396-418 | exactly the messages the log does not hold yet are left, on disk and in line, in their order |
| Conductor.Chat.Commit | crates/omni-core/src/session/meta.rs:200-215 | a write happens whole or not at all |
| Conductor.Chat.Save | crates/omni-core/src/chat.rs:736-750 | a failed write changes nothing on disk and ends the session |
| Conductor.Chat.PersistenceFailed | crates/omni-core/src/chat.rs:2218-2224 | losing storage is terminal |
| Conductor.Chat.Record | crates/omni-core/src/chat.rs:2181-2211 | what is logged is the event with its provider and turn filled in, at the next position |
| Conductor.Chat.Note | crates/omni-core/src/chat.rs:2181-2211 | logging an event that opens nothing keeps every invariant |
| Conductor.Chat.Blocked | crates/omni-core/src/chat.rs:1712-1716 | what went wrong is the last thing logged, and no queue is touched |
| Conductor.Chat.PutAhead | crates/omni-core/src/chat.rs:1118-1120 | messages put back one by one end up in front in their own order |
| Conductor.Chat.CloseTurn | crates/omni-core/src/chat.rs:1108-1153 | the queues become retries, then unconfirmed writes, then the outbox; the runner is down; an END is logged exactly if the turn was recorded; no recovery write is made |
| Conductor.Chat.TakeBack | crates/omni-core/src/chat.rs:1115-1136 | the queue part of that, in memory and on disk alike |
| Conductor.Chat.Rung | crates/omni-core/src/chat.rs:1738-1740 | the dial resolves only to a provider on it |
| Conductor.Chat.Stale | crates/omni-core/src/chat.rs:1757-1765 | a runner that is not stale has its provider on the dial and its settings current |
| Conductor.Chat.Tunable | crates/omni-core/src/chat.rs:1768-1777 | only the provider already running can be retuned |
| Conductor.Chat.Retune | crates/omni-core/src/chat.rs:1782-1804 | retuning changes the signature and nothing else about the runner |
| Conductor.Chat.Release | crates/omni-core/src/chat.rs:1846-1874 | a session whose instructions are fixed is let go, id and mark together, if both writes succeed |
| Conductor.Chat.Park | crates/omni-core/src/chat.rs:1842-1899 | nobody is in charge afterwards, and whoever was is parked as what its provider is bound to, or gone |
| Conductor.Chat.BringUp | crates/omni-core/src/chat.rs:2043-2059 | a new epoch is spent; a runner that resumes, or starts with everything, holds all history in scope if it absorbs what it is given |
| Conductor.Chat.Unpark | crates/omni-core/src/chat.rs:1908-1926 | a parked runner that catches up holds all history in scope once it has its seed, unless its watermark is broken, and its mark never falls |
| Conductor.Chat.TakeParked | crates/omni-core/src/chat.rs:1973-1988 | only a parked runner whose configuration is the one wanted is taken back, and whether its tuning is too is said; any other is gone |
| Conductor.Chat.Adopt | crates/omni-core/src/chat.rs:1990-2041 | the runner is in charge under its epoch and bound; if it has its seed its provider is marked up to the end of the log, and what it holds it goes on holding |
| Conductor.Chat.Launch | crates/omni-core/src/chat.rs:1928-1970 | success leaves the wanted provider in charge under the wanted settings |
| Conductor.Chat.ResumeOrReseed | crates/omni-core/src/chat.rs:1943-1969 | a provider that has lost its session gets a new one that holds the whole conversation, if it absorbs what it is given |
| Conductor.Chat.Rebuild | crates/omni-core/src/chat.rs:1780-1839 | success leaves a provider on the dial in charge under the current settings |
| Conductor.Chat.MovedOn | crates/omni-core/src/chat.rs:1073-1088 | a provider off the dial has nothing parked |
| Conductor.Chat.AnyoneLeft | crates/omni-core/src/chat.rs:1093-1105 | true exactly if the dial is not empty; otherwise everyone set aside is given another chance, and that is said |
| Conductor.Chat.Sideline | crates/omni-core/src/chat.rs:1063-1070 | success leaves strictly fewer providers on the dial, and at least one; emptying the dial is said and restores it; a provider not on it changes nothing |
| Conductor.Chat.Attempt | crates/omni-core/src/chat.rs:1687-1707 | it terminates whoever fails to start; success leaves a provider on the dial in charge, and failure is never silent |
| Conductor.Chat.SetAsideUnstarted | crates/omni-core/src/chat.rs:1688-1704 | only failover sets a provider aside, and each one set aside leaves fewer to try; giving up is said |
| Conductor.Chat.Enqueue | crates/omni-core/src/chat.rs:1506-1519 | the message is durable under the next id and last in line, or nothing has changed |
| Conductor.Chat.RecordDelivery | crates/omni-core/src/chat.rs:1639-1649 | the opening event is durable before the message is retired, in exactly these two writes |
| Conductor.Chat.Deliver | crates/omni-core/src/chat.rs:1621-1654 | the head of the outbox is recorded as a START of the next turn or an INJECTED of this one, retired, and remembered under its turn |
| Conductor.Chat.AwaitEcho | crates/omni-core/src/chat.rs:1612-1620 | a written message waits behind earlier ones for its confirmation, still pending on disk |
| Conductor.Chat.TakeSeed | crates/omni-core/src/providers/antigravity_cli/runner.rs:265-279 | with the message it takes a runner has what it was handed when it came up, but for what came late, and with the whole history a watermark that can be trusted |
| Conductor.Chat.Take | crates/omni-core/src/chat.rs:1612-1654 | however it was taken, the head has left the outbox for a turn or for its echo, a turn is on, and the seed is in |
| Conductor.Chat.Confirm | crates/omni-core/src/chat.rs:890-929 | a confirmation counts exactly if it names the oldest unconfirmed write and an opening kind; otherwise nothing changes |
| Conductor.Chat.ConfirmHead | crates/omni-core/src/chat.rs:907-928 | the confirmed message is recorded and retired in exactly two writes |
| Conductor.Chat.Overhear | crates/omni-core/src/chat.rs:791-818 | output of a replaced runner reaches the log marked late and lowers the ceiling, and can change nothing else |
| Conductor.Chat.SaveRecovery | crates/omni-core/src/chat.rs:1195-1235 | one write moves the stage, and both queues follow it |
| Conductor.Chat.RecoveryFailed | crates/omni-core/src/chat.rs:1369-1383 | the turn is closed and recovery is over |
| Conductor.Chat.CloseAnswered | crates/omni-core/src/chat.rs:1459-1487 | an END answers the oldest unfinished turn; the chat is idle if and only if no accepted turn and no echo was outstanding, and only then does the mark rise to the ceiling or the end of the log |
| Conductor.Chat.FinishTurn | crates/omni-core/src/chat.rs:1459-1502 | answers the oldest turn, and flushes only with no turn or echo outstanding; the queue then went as far as the outcome says |
| Conductor.Chat.DispatchQueued | crates/omni-core/src/chat.rs:1529-1540 | terminates whatever the providers do; the queue went as far as the outcome says, and if nobody is up afterwards that was said |
| Conductor.Chat.Flush | crates/omni-core/src/chat.rs:1547-1656 | nothing is handed to a runner that is down or about to be replaced; otherwise everything that may be is handed over in order, or a message is turned down |
| Conductor.Chat.HandAll | crates/omni-core/src/chat.rs:1557-1656 | messages are handed over one by one in queue order until none is left, recovery holds the next one back, or one is turned down |
| Conductor.Chat.HandOver | crates/omni-core/src/chat.rs:1563-1620 | one message is offered, the head of the outbox, and leaves it only if it was taken, and then with it the seed is in |
| Conductor.Chat.Refused | crates/omni-core/src/chat.rs:1570-1610 | for want of room, recovery starts, moves on, or waits for the END of the turn that is on; during recovery anything else gives up; otherwise unanswered turns go back in line, and a lost login takes the provider off the list |
| Conductor.Chat.Failed | crates/omni-core/src/chat.rs:1046-1059 | unfinished turns go back in line and the queue is flushed to whoever comes up next; with failover off the queue waits and nobody is left running; terminates, since fewer are left to fall back on |
| Conductor.Chat.GiveWay | crates/omni-core/src/chat.rs:1051-1058 | the queue as it stands is flushed to whoever comes up in place of a provider set aside |
| Conductor.Chat.Unauthenticated | crates/omni-core/src/chat.rs:999-1039 | as for a failure, and with failover on the provider is off the list for good |
| Conductor.Chat.MoveOff | crates/omni-core/src/chat.rs:1007-1038 | the provider is off the list, and the queue as it stands is flushed to whoever comes up next |
| Conductor.Chat.Remove | crates/omni-core/src/chat.rs:1013-1035 | the provider is off the list and the dial, with one durable write of the list without it |
| Conductor.Chat.RecoverContext | crates/omni-core/src/chat.rs:1156-1193 | recovery begins by compacting, and only outside a recovery |
| Conductor.Chat.BeginRecovery | crates/omni-core/src/chat.rs:1157-1182 | the questions of the turn that overflowed are kept to be asked again; a refused message is not among them |
| Conductor.Chat.StartHandoff | crates/omni-core/src/chat.rs:1270-1292 | the next recovery write is a handoff whose message holds everything said since history was last restarted, word for word |
| Conductor.Chat.RecoveryMessage | crates/omni-core/src/chat.rs:1237-1268 | the next recovery write moves to the stage asked for |
| Conductor.Chat.WriteMessage | crates/omni-core/src/chat.rs:1237-1265 | the stage's message is at the head of the outbox, and a stage that restarts the conversation leaves nobody running or parked |
| Conductor.Chat.PutDown | crates/omni-core/src/chat.rs:1238-1246 | the session that ran out of room and every parked one are gone, unconfirmed writes are back in line in order ahead of the rest, and nothing carried over has changed |
| Conductor.Chat.RecoveryEnded | crates/omni-core/src/chat.rs:1294-1367 | the next recovery write is the one the transition table gives for the stage, the failure and whether anything is queued |
| Conductor.Chat.Compacted | crates/omni-core/src/chat.rs:1313-1330 | what overflowed is asked again, or the next in line is let through, or recovery is over; naming the next leaves recovery in front on disk if and only if no echo is awaited, wherever memory has the order of the disk |
| Conductor.Chat.NameHead | crates/omni-core/src/chat.rs:1315-1323 | recovery waits for the head of the outbox, in one write that leaves it in front on disk if and only if no echo is awaited, wherever memory has the order of the disk |
| Conductor.Chat.ResumeNext | crates/omni-core/src/chat.rs:1346-1357 | one further queued message is let through, in front on disk if and only if no echo is awaited, wherever memory has the order of the disk; it is another than the last if and only if the last has left the outbox |
| Conductor.Chat.RecoveryDone | crates/omni-core/src/chat.rs:1358-1365 | recovery is over and the session goes on |
| Conductor.Chat.Absorb | crates/omni-core/src/chat.rs:769-885 | output of a replaced runner changes no queue, turn flag, dial or runner; once stopping, nothing heard starts new work; what is reported reaches the log |
| Conductor.Chat.React | crates/omni-core/src/chat.rs:807-885 | the runner in charge is logged under the current turn before anything is done about it |
| Conductor.Chat.Respond | crates/omni-core/src/chat.rs:831-885 | what the model says clears a pending failure and nothing else; an END or a final error leads where Ended and Erred say |
| Conductor.Chat.Ended | crates/omni-core/src/chat.rs:834-846 | an END goes to recovery if one is under way, starts one if the turn ran out of room, retries the turn elsewhere after another final error, and else answers the oldest turn |
| Conductor.Chat.Erred | crates/omni-core/src/chat.rs:847-884 | during recovery a crash or a lost login ends compaction in a handoff, and any other stage in giving up; outside it unfinished turns go back in line; an error that ends no turn by itself is only remembered |
| Conductor.Chat.Dispatch | crates/omni-core/src/chat.rs:1522-1527 | acceptance is one durable write, made before any provider is spoken to, and is never taken back; the queue with the new message last went as far as the outcome says |
| Conductor.Chat.Deadline | crates/omni-core/src/chat.rs:552-570 | a compaction that takes too long becomes a handoff |
| Conductor.Chat.Configure | crates/omni-core/src/chat.rs:660-732 | a setting is durable before it applies, and listing providers brings back all that were set aside |
| Conductor.Chat.ResumeRecovery | crates/omni-core/src/chat.rs:1386-1457 | an interrupted recovery whose message was not taken offers it, one whose turn came to its own end goes on as that end says, and one compacting or cut short hands off, with everything said in the message |
| Conductor.Chat.LaunchOnce | crates/omni-core/src/chat.rs:754-767 | the first launch hands a recovery off if it was compacting or its message was cut short, and notes the latter if and only if it was; it takes any other recovery up, or brings a provider up and flushes the queue; any later launch does nothing |
| Conductor.Chat.StandDown | crates/omni-core/src/chat.rs:2083-2101 | everyone is put down while what they say is still heard |
| Conductor.Chat.Drain | crates/omni-core/src/chat.rs:2140-2162 | all that is said on the way out reaches the log and starts nothing |
| Conductor.Chat.Shutdown | crates/omni-core/src/chat.rs:2079-2137 | nobody is left, no turn is open, and every accepted message not yet delivered is in the outbox as on disk |
| Conductor.Chat.Settle | crates/omni-core/src/chat.rs:2105-2136 | the turn that was on is ended and unconfirmed writes are back in line |
| Conductor.Chat.EndInterrupted | crates/omni-core/src/chat.rs:2105-2127 | the turn that was on is over, and nobody is in charge |
| Conductor.Chat.ReturnWrites | crates/omni-core/src/chat.rs:2128-2133 | unconfirmed writes are back in line, in order, ahead of the rest |
| Conductor.Chat.Handle | crates/omni-core/src/chat.rs:576-631 | over any one wake: what is sent is accepted; the message recovery waits for stays in reach; every unbroken watermark stays sound, is broken only by a new session or a mark ahead of its seed, and falls only for a session let go; the runner in charge, once it has its seed, holds what its mark may cover; and without a recovery and without a slip no message overtakes another |
| Conductor.Chat.Serve | crates/omni-core/src/chat.rs:537-631 | and so over any wakes in any order, the launch and the first deadline among them |
| Conductor.Chat.Run | crates/omni-core/src/chat.rs:537-640 | a whole life keeps every invariant; what was sent is accepted in order; without a recovery, with failover on and without a slip it is, in order, what was answered, what is being answered and what is in line |
| Conductor.Live | crates/omni-core/src/chat.rs:339-537 | a process cut off anywhere leaves a legal journal; if it found recovery's message in front and never named one behind another, which takes a provider that echoes, it leaves it in front |
| Conductor.Lives | crates/omni-core/src/chat.rs:339-533 | life after life on one disk, each cut off anywhere, no accepted message is lost or recorded twice, and without a provider that echoes a recovery under way always waits for a message the next process can deliver |
| Manners.Taken | crates/omni-core/src/chat.rs:1621-1654 | a message taken at once keeps the queues as the runner's way leaves them, or is a slip |
| Manners.Confirmed | crates/omni-core/src/chat.rs:890-929 | and so does a confirmation |
| Manners.TurnOver | crates/omni-core/src/chat.rs:1459-1487 | and an END, which leaves nothing outstanding exactly when no turn is on |
| Stragglers.StragglersChangeNothing | crates/omni-core/src/chat.rs:791-818 | wherever in a run replaced runners speak up, whatever they say and whatever the world answers, the run goes on as without them: same queues, turn, runner, parked and benched providers, same log but for late records, same metadata but for watermarks |
| Stragglers.DoAlike | crates/omni-core/src/chat.rs:769-885 | one wake or one answer of the world leads desks that differ only in late events and watermarks to desks that do |
| Stragglers.AcceptingIsThis | crates/omni-core/src/chat.rs:1506-1519 | accepting a message is that function's step |
| Stragglers.TakingIsThis | crates/omni-core/src/chat.rs:1621-1654 | so is delivering one |
| Stragglers.WritingIsThis | crates/omni-core/src/chat.rs:1612-1620 | and writing one to a provider that echoes |
| Stragglers.SeedingIsThis | crates/omni-core/src/chat.rs:1563-1569 | and taking its seed in with a message |
| Stragglers.ConfirmingIsThis | crates/omni-core/src/chat.rs:907-928 | and confirming it |
| Stragglers.TakingBackIsThis | crates/omni-core/src/chat.rs:1115-1136 | and taking back what a closed turn left |
| Stragglers.AnsweringIsThis | crates/omni-core/src/chat.rs:1459-1487 | and answering a turn |
| Stragglers.OverhearingIsThis | crates/omni-core/src/chat.rs:791-818 | and logging what a replaced runner says |
| Stragglers.RetuningIsThis | crates/omni-core/src/chat.rs:1782-1804 | and giving the runner in charge another tuning |
| Stragglers.PuttingAsideIsThis | crates/omni-core/src/chat.rs:1842-1899 | and putting it aside, parked or let go |
| Stragglers.AdoptingIsThis | crates/omni-core/src/chat.rs:1990-2041 | and putting another in charge: bound, marked if it has its seed, and announced |
| Stragglers.MovingIsThis | crates/omni-core/src/chat.rs:1073-1088 | and leaving a provider |
| Broadcasting.NoGapNoRepeat | crates/omni-daemon/src/registry.rs:44-94 | under every interleaving, what a listener sends is the log from where it asked to start: consecutive, in order, each once |
| Broadcasting.NothingMissing | crates/omni-daemon/src/registry.rs:242-261 | an open subscriber has had everything the conductor has published |
| Broadcasting.NothingAfterADrop | crates/omni-daemon/src/wiring.rs:82-93 | nothing follows the first frame that was dropped |
| Broadcasting.NoticesMoveNothing | crates/omni-daemon/src/wiring.rs:199-211 | under every interleaving, the durable output, cursor and state of every listener are what they would be had no notice ever been published, but that a notice a connection had no room for has closed it |
| Broadcasting.Always | crates/omni-core/src/chat.rs:2272-2276 | the conductor, the sink and attaching clients keep every cursor ahead of the stream |
| Broadcasting.Connection.Write | crates/omni-daemon/src/wiring.rs:82-93 | a line goes out whole, or the connection is closed |
| Broadcasting.Connection.WriteReplay | crates/omni-daemon/src/wiring.rs:95-128 | waiting for room ends, and the line goes out once or the connection is closed |
| Broadcasting.Listener.Deliver | crates/omni-daemon/src/wiring.rs:198-212 | exactly the frames not had yet are sent, and the cursor moves past durable ones only |
| Broadcasting.Listener.Replay | crates/omni-daemon/src/wiring.rs:217-228 | and so for replay |
| Admitting.LanesAreFifo | crates/omni-daemon/src/main.rs:187-211 | requests of one lane run one at a time, in the order they were read |
| Admitting.NeverOverfull | crates/omni-daemon/src/main.rs:232-255 | requests in hand never exceed the bound, and the count is right |
| Admitting.SomeoneIsAble | crates/omni-daemon/src/main.rs:408-437 | while any request has a place, one that has a place can go on, even with the gate full |
| Admitting.BarrierIsReached | crates/omni-daemon/src/main.rs:257-273 | under every fair schedule, with requests still read and refused meanwhile, the daemon is empty after as many rounds as there was work in hand when the gate closed |
| Admitting.FairRound | crates/omni-daemon/src/main.rs:257-273 | each round in which everyone with a place gets to try gets some request further, whatever is scheduled in between |
| Admitting.StaysEmpty | crates/omni-daemon/src/main.rs:270-295 | and stays empty, whatever happens |
| Admitting.Always | crates/omni-daemon/src/main.rs:408-437 | tickets, turns and places agree in every reachable state |
| Gating.NeverTogether | crates/omni-daemon/src/registry.rs:323-351 | two operations on one session never overlap, although gates are removed and remade |
| Gating.NeverInTheWay | crates/omni-daemon/src/registry.rs:323-330 | sessions never wait for each other |
| Gating.SweepLeavesIff | crates/omni-daemon/src/registry.rs:336-351 | a sweep leaves the gate on the map if and only if somebody else holds a clone of it |
| Gating.LeftBehindIff | crates/omni-daemon/src/registry.rs:323-351 | after any interleaving a session id has a gate if and only if somebody waits or operates under it, or the last sweep of that name found it shared |
| Gating.GateLeftBehind | crates/omni-daemon/src/registry.rs:342-348 | two operations that overlap and leave a gate behind, step by step |
| Multiplexing.OwnReplyOnly | crates/omni-client/src/lib.rs:806-816 | a call succeeds only with the reply to its own id, and no reply reaches two calls |
| Multiplexing.NobodyIsStranded | crates/omni-client/src/lib.rs:301-322 | once a disconnect has taken the pending map, whoever waits has an answer or one on its way |
| Multiplexing.EveryCallEnds | crates/omni-client/src/lib.rs:432-466 | and every call is at most three steps from its end, none of them its timeout |
| Multiplexing.Always | crates/omni-client/src/lib.rs:285-322 | registrations, channels and the connection's state agree in every reachable state |
| Reading.ReadRequestLine | crates/omni-daemon/src/main.rs:328-367 | however the bytes arrive, one read returns what the whole stream decides, consumes exactly what it returns, and holds at most the limit and one byte |
| Reading.SplitIsFaithful | crates/omni-daemon/src/main.rs:325-328 | the requests of a stream glued together are the stream again, up to its end or an endless line |
| Reading.ReadRequests | crates/omni-daemon/src/main.rs:370-394 | reading on gives exactly the stream's requests and the outcome that ends it |
| Reading.ChunkSettles | crates/omni-daemon/src/main.rs:342-365 | what one chunk settles, the whole stream does |
| Choosing.Edge | apps/web/lib/choose.ts:175-188 | the frontier falls strictly in score and price, holds the first model on every undominated spot and no other, and has something as good and no dearer for every model |
| Choosing.FrontierIsUnique | apps/web/lib/choose.ts:175-188 | and nothing else has those properties |
| Choosing.ClimbEnds | apps/web/lib/choose.ts:164-169 | domination is well founded: every model has an undominated one at least as good and no dearer |
| Choosing.SortedIsStable | apps/web/lib/choose.ts:179-181 | sorting keeps the first model on each spot first |
| Choosing.LadderOf | apps/web/lib/choose.ts:201-210 | an empty frontier gives no dial; otherwise every level has its rung, 10 the best and 0 the cheapest |
| Choosing.DialIsMonotone | apps/web/lib/choose.ts:201-210 | score and price never fall as the level rises |
| Choosing.EveryoneHasALevel | apps/web/lib/choose.ts:205-207 | with at most eleven on the frontier every one has a level |
| Choosing.LevelsDiffer | apps/web/lib/choose.ts:205-207 | with at least eleven no two levels are the same |
| Catalogs.IdentityIsInjective | apps/web/lib/catalog.ts:20-22 | slash-joined identities tell configurations apart although model names may hold slashes |
| Catalogs.SlashesConfuse | apps/web/lib/catalog.ts:20-22 | they would not if a provider or an effort could hold one |
| Catalogs.ValidateCatalog | apps/web/lib/catalog.ts:27-88 | accepted are exactly the publishable catalogs |
| Catalogs.ValidateKey | apps/web/lib/catalog.ts:58-79 | a category is accepted exactly if each recommendation stands for a current row, is no freer than it, and is fast only where it can be |
| Catalogs.ShortlistIsSound | apps/web/lib/choose.ts:141-160 | every entry of a shortlist is a current row under the same provider, model and effort, and is available only where its provider is listed and, if required, confirmed |
| Catalogs.PickIsSound | apps/web/lib/choose.ts:155-158 | and so is the pick |
| Catalogs.ByIntelligence | apps/web/lib/choose.ts:216-228 | there is an answer exactly if anything is offered; nothing offered beats it, nothing scores higher at the top, nothing costs less at the bottom |
| Catalogs.UpgradeIsSound | apps/web/lib/catalog.ts:89-97 | an older catalog is accepted exactly if it was sound but for the missing category; a newer one is left alone |

## Left out

- Prompt texts, transcript wording, roles and header: the transcript of a handoff is the carried texts joined; `translate.rs` is represented by that.
- Notices said once per provider, the status snapshot, publishing order within one wake: none of them changes what is queued, delivered or recorded.
- The provider adapters: a runner is whatever answers the calls the conductor makes; one that comes up is taken to have a session id, and one opened anew to have a new one.
- Classifying error texts: an event carries its failure kind; recognising context exhaustion in a mislabelled event is part of that.
- The model, effort and prompt strings: a runner's settings are a tuning number, and a prompt and the rest of its configuration as numbers, compared for equality only.
- Which provider the dial resolves to: any provider on it, or none; the core's own `resolve` is not part of this model.
- Byte-level storage: an append and a metadata replacement are atomic, and damaged files at startup are not modelled.
- `Conductor.Chat.PersistenceFailed`: does not clear the queues and runners in memory as the program does; nothing reads them afterwards.
- Message ids are numbers in order of issue rather than random strings; that they do not repeat is all that is used. Runner epochs do not saturate.
- Wall-clock time: the compaction deadline and the replay timeout are steps that may happen at any moment while they are armed.
- `Conductor.Chat.line`, `Conductor.Chat.crew`: one record each for the queues and the runners, which the program keeps as separate fields.
- `Conductor.Chat.Flush`: whether a runner is alive and what the dial resolves to are asked of the world, so a flush that finds nobody up is always possible; its outcome says whether it did.
- How many messages recovery lets through before it ends: each is one that was queued, and the next is another one exactly when the last has left the outbox; callers may go on queueing, so there is no bound.
- `Stragglers.Step`: stops where recovery begins, for a handoff's text does carry what late output said; and while its steps on the queues, the turn and the runner in charge are proved to be the class's own, the order in which providers are tried, resumed and reseeded is stated there a second time.
- `Runners.Owed`: a session opened anew over a mark that half a release left is taken to be handed no more than a resumed one is; its provider's watermark stays broken until the next fresh start.
- `Conductor.Chat.Shutdown`: gives up sight of the message recovery waits for, as the program's memory does; what the disk keeps of it is in `Conductor.Live`.
- Threads, locks and condition variables in the daemon and the client: interleaved atomic steps on values. Update in place is kept for the connection, the listener and the reader.
- Admission order at a full gate: whoever is woken first; the operating system decides.
- End-to-end delivery over several listeners on one connection: the claims are per listener.
- Subscriptions, open sessions and frames in the client: only calls are followed.
- Values of the wrong JSON type, benchmark definitions, sources, caveats and score ranges in a catalog: rejected before or beside what is modelled.
- Number parsing in the chooser: scores and prices are numbers; the curated dial, `byName` and the list of unusable rows are settled by reading one branch.
- The web interface, accounts, cookies, storage back ends, command lines, signals and process spawning.
