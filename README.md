# fox — a Dafny model of the Discord music bot's command core

fox is a Discord bot that streams SoundCloud tracks into a voice channel.
Members type commands prefixed with the bot's prefix (`!fox add <url>`,
`!fox queue shuffle`, `!fox volume 50%` ...). The bot checks who may use
each command and where, keeps a per-guild queue of tracks, and drives a
player whose flags say whether it is playing, stopped or paused.

This project models that core in Dafny:

- the **queue** (`player/queue.go`, and the older `bot/queue.go`):
  - insertion at the end or "play next";
  - pop, loop, shuffle, clear and remove-n;
  - the "Current Queue" card.
  A playing head track at index 0 is protected.
- the **player controls** (`player/control.go`, `player/state.go`):
  - stop, skip, pause and resume as changes to the player's flags plus a count of stop signals;
  - the volume in raw gain units, and its percentage form.
- the **player display** (`player/display.go`, `tracks/soundcloud.go`):
  - duration formatting;
  - the 30-cell progress bar;
  - the track card, the listing links and the stream-type fallback.
- **permissions** (`acl/`): the role restriction (Admin, Privileged, Anyone), the channel restriction (Music, Anywhere), and their labels.
- the **guild settings** (`guild/guild.go`, `models/guild.go`): choosing the voice or text channel by name or ID.
- the **message pipelines**:
  - `bot/message.go` and the older `bot/handler.go`: prefix, help, lookup, private-conversation check, permission check, required arguments;
  - the still older `bot/router.go`.
- the **commands** (`commands/*.go`): play, stop, pause, skip, nowplaying, volume, remove, queue, setup, add, next and jam, plus the help card every command can show.
- the older bot's handlers: `bot/handlers_control.go`, `bot/handlers_public.go`, `bot/vote.go` and `bot/display.go`.

How the model is built:

- Objects the source updates in place are Dafny classes whose methods are proved against pure specification functions. Examples: the queue, the player, the player state, the guild state, the vote holder and the older bot.
- The properties are lemmas about those functions. Examples: order, head protection, permutation, the listing count, restriction nesting and argument parsing.
- Discord, SoundCloud and the database are inputs or outcomes. Their inputs are the results of lookups: channel lists, guild roles, the provider's answers and join errors. Their outcomes are the replies and cards the handlers return.

Go's `strings.Fields`, `strings.Split`, `strings.Trim`, `strings.HasPrefix`, `strconv.Atoi` (64-bit) and `strconv.Itoa` are modelled in `GoStrings`. Go's truncating division is written out where a value can be negative (`PlayerDisplay.Quo`).

## Model

| member | source | states |
|---|---|---|
| QueueSpec.AppendOrder | player/queue.go:68-73 | appending keeps the old tracks first and the new ones after, in order, and the durations add up |
| QueueSpec.PrependOrder | player/queue.go:55-65 | play-next adds exactly the new tracks, keeps a playing head in front, puts the first new track next, keeps both orders |
| QueueSpec.PrependIdleThenPop | player/queue.go:55-83 | prepending to an idle queue then popping as many tracks gives back the old queue |
| QueueSpec.PopRemovesHead | player/queue.go:76-83 | pop removes exactly the head of a non-empty queue and leaves an empty one empty |
| QueueSpec.LoopRotates | player/queue.go:88-97 | loop moves the head to the tail: same tracks, the old second track first |
| QueueSpec.ClearKeepsOnlyHead | player/queue.go:135-147 | clear leaves an empty queue empty, [head] while playing, [] otherwise; clearing twice equals once |
| QueueSpec.RemoveNSpec | player/queue.go:150-163 | remove-n: zero removes nothing, a count reaching the removable part gives Clear's result, otherwise n tracks after the protected head go and the rest keeps its order |
| QueueSpec.RemoveNExample | player/queue.go:150-163 | on five tracks, removing two keeps the playing head and drops the two after it |
| QueueSpec.ProtectedHead | player/queue.go:55-163 | while playing, prepend, clear, remove-n, shuffle and append never move index 0 |
| QueueSpec.ShufflePreservesTotals | player/queue.go:113-131 | a shuffle keeps the queue length and total duration |
| GoRand.RandShuffle | player/queue.go:113-131 | the in-place swap loop permutes the array |
| GoRand.ShuffledCopy | player/queue.go:113-131 | shuffling a copy gives a permutation of the input of the same length |
| Tracks.SumDurationsAppend | player/queue.go:28-37 | the queue's total duration is additive over concatenation |
| Tracks.SumDurationsPermutation | player/queue.go:28-37 | the total duration does not depend on track order |
| Tracks.MarkdownLinkWrapsStatus | tracks/soundcloud.go:18-24 | the listing line is the "title - user" status wrapped as a Markdown link; title and user can be read back |
| Tracks.StreamURL | tracks/soundcloud.go:32-46 | the stream URL lookup returns what the fallback over Opus, HLS MP3, progressive MP3 returns |
| Tracks.FallbackSpec | tracks/soundcloud.go:32-46 | the fallback succeeds iff some type succeeds, yields the first success, else the last failure |
| Tracks.TrackEmbedFields | tracks/soundcloud.go:48-81 | the track card has Plays, Likes, Reposts, Duration, then "In Playlist" exactly when the track came from a playlist |
| PlayerState.State.constructor | player/state.go:13-17 | a new state is idle, not stopped, not paused, at volume 256 |
| PlayerQueue.Queue.constructor | player/queue.go:23-25 | a new queue is empty and reads the given state |
| PlayerQueue.Queue.Duration | player/queue.go:28-37 | the sum of the tracks' durations |
| PlayerQueue.Queue.Len | player/queue.go:46-51 | the number of tracks |
| PlayerQueue.Queue.Prepend | player/queue.go:55-65 | the queue becomes PrependResult (after a playing head, else in front) |
| PlayerQueue.Queue.Append | player/queue.go:68-73 | the new tracks are added at the end |
| PlayerQueue.Queue.Pop | player/queue.go:76-83 | the head is removed, if any |
| PlayerQueue.Queue.Loop | player/queue.go:88-97 | the head moves to the tail when there are two or more tracks |
| PlayerQueue.Queue.Get | player/queue.go:101-109 | nil iff the queue is empty, else the head; the queue is unchanged |
| PlayerQueue.Queue.Shuffle | player/queue.go:113-131 | a permutation of the tracks, the head kept while playing; fewer than two tracks stay put |
| PlayerQueue.Queue.Clear | player/queue.go:135-147 | the queue becomes ClearResult |
| PlayerQueue.Queue.RemoveN | player/queue.go:150-163 | the queue becomes RemoveNResult (the intended result; see Findings) |
| PlayerQueue.Queue.GenerateQueueEmbed | player/queue.go:165-196 | the whole "Current Queue" card: listing body, track count and total duration fields, no footer (intended cut-off; see Findings) |
| PlayerQueue.RemoveNAsWrittenBlocks | player/queue.go:150-163 | as written, RemoveN blocks forever exactly when it falls back to Clear, and otherwise gives the intended result |
| PlayerQueue.RemoveFiveOfThreeBlocks | player/queue.go:150-156 | as written, `remove 5` on a three-track queue never returns |
| QueueListing.BuildListing | player/queue.go:172-184 | the loop's body is the listing with the cut-off at index 9, and its total is the queue duration |
| QueueListing.LinksAppend | player/queue.go:172-177 | listing lines concatenate in queue order |
| QueueListing.ListingAsWritten | bot/display.go:50-62 | as written (`i <= 10`): an empty queue gives the fixed text, at most eleven lines are listed, and for more than ten tracks listed plus reported is one more than the queue holds |
| QueueListing.ListingIntended | bot/display.go:50-62 | with the cut-off at index 9, listed lines plus the "other tracks" count equal the queue length |
| QueueListing.TwelveTracksMiscounted | bot/display.go:52-59 | with twelve tracks the source lists eleven and says two others follow |
| PlayerControl.StopAndSkip | player/control.go:6-29 | stop and skip do nothing when idle; otherwise stop sets Stopped and sends one signal, skip sends one signal and leaves Stopped |
| PlayerControl.PauseResume | player/control.go:15-38 | pause and resume are idempotent; pause needs a playing stream; resume undoes pause |
| PlayerControl.PercentInRange | player/control.go:50-59 | every accepted percentage maps into SetVolume's range, so its inner error never happens; 100 % is 256 |
| PlayerControl.VolumeRejections | player/control.go:41-59 | rejected volumes and percentages leave the state unchanged |
| PlayerControl.Player.constructor | player/player.go:31-53 | a new player has a fresh idle state at the default volume, an empty queue sharing that state, no stream |
| PlayerControl.Player.Play | player/play.go:13-16 | a playback loop is started only when not already playing |
| PlayerControl.Player.Stop | player/control.go:6-12 | the new control state is StopStep of the old one |
| PlayerControl.Player.Pause | player/control.go:15-21 | the new control state is PauseStep of the old one |
| PlayerControl.Player.Skip | player/control.go:24-29 | the new control state is SkipStep of the old one |
| PlayerControl.Player.Resume | player/control.go:32-38 | the new control state is ResumeStep of the old one |
| PlayerControl.Player.SetVolume | player/control.go:41-48 | an error outside 0–512, else the volume is set |
| PlayerControl.Player.SetVolumePercent | player/control.go:50-59 | an error outside 0–200 %, else the volume becomes 256·v/100 |
| PlayerDisplay.RoundToSecond | player/display.go:10-21 | rounding lands on a whole second at most half a second away, ties away from zero |
| PlayerDisplay.ClockOfSeconds | player/display.go:10-21 | on whole seconds the fields are the hours, minutes and seconds, with the sign |
| PlayerDisplay.SplitRecombines | player/display.go:10-21 | the printed fields add up to the rounded duration; minutes and seconds are below 60 |
| PlayerDisplay.Pad2RoundTrip | player/display.go:16-20 | a field prints as two digits that read back as itself |
| PlayerDisplay.FmtDurationShape | player/display.go:10-21 | `HH:MM:SS` from one hour on, `MM:SS` below |
| PlayerDisplay.MarkerBounds | player/display.go:23-33 | the marker is inside the bar, first at 0, last once played out, and never moves back |
| PlayerDisplay.BarShape | player/display.go:23-33 | the bar has 30 cells, exactly one marker, the rest dashes |
| PlayerDisplay.GeneratePlayerString | player/display.go:23-33 | the line is the bar with the marker at the playback position |
| PlayerDisplay.NowPlayingCases | player/display.go:35-65 | no card unless a track plays; otherwise the head track's card with its bar, and either no fields or the track fields plus the queue summary |
| PlayerDisplay.GenerateNowPlayingEmbed | player/display.go:35-65 | the card is NowPlaying of the player's flags and queue |
| Acl.HasRole | acl/acl.go:95-102 | true iff the role is among the member's roles |
| Acl.IsAdmin | acl/acl.go:105-124 | the owner, or a holder of an unmanaged role with the Administrator bit; a guild lookup error is passed on |
| Acl.IsPrivileged | acl/acl.go:79-92 | an administrator or a holder of the DJ role; errors are wrapped with "check admin: " |
| Acl.Check | acl/acl.go:38-71 | the decision the restrictions give, the guild state being read first |
| Acl.StateErrorFirst | acl/acl.go:42-45 | a guild state error fails every check as "get guild state: …" |
| Acl.RoleRestrictionIgnoresChannel | acl/acl.go:47-58 | Admin and Privileged never look at the channel |
| Acl.NoDJRoleMeansAdmin | acl/acl.go:51-55 | without a DJ role, Privileged is Admin |
| Acl.RestrictionsNest | acl/acl.go:47-71 | passing Admin implies passing Privileged; Anyone passes everywhere when no music channel is set |
| Acl.AnyoneDecidedByChannel | acl/acl.go:60-71 | for Anyone, Music allows only the configured channel and Anywhere allows all, with no guild lookup |
| Acl.OwnerIsAdmin | acl/acl.go:105-124 | the owner is an administrator; without roles only the owner is |
| AclDisplay.LabelsDistinct | acl/display.go:3-29 | each declared kind has its own non-empty label; other values get "" |
| GuildState.LastMatchSpec | guild/guild.go:46-56 | a channel is found iff one matches, and it is the last matching one |
| GuildState.State.constructor | guild/guild.go:23-27 | a new guild state holds only its ID |
| GuildState.State.SetChannel | guild/guild.go:31-65 | an empty ID or a fetch error fails; otherwise the last matching channel of the kind is recorded, or "not found" changes nothing |
| GuildConf.GuildIDSelectsLastOfKind | models/guild.go:56-57 | as written, the guild's own ID matches every channel of the kind |
| GuildConf.ChannelIDSlip | models/guild.go:56-57 | as written, "g" selects an unrelated channel and a channel's own ID is not found |
| GuildConf.AgreeOnNames | models/guild.go:56-57 | by name, the written and corrected conditions choose the same channel |
| GuildConf.Conf.constructor | models/guild.go:30-34 | a new configuration holds only its ID |
| GuildConf.Conf.SetChannel | models/guild.go:38-72 | the corrected selection: the last channel of the kind whose name or ID is the value |
| Commands.AccessorsReturnFields | commands/command.go:86-100 | ACL, Calls, Opts and GetHelp return the stored fields, channel restriction first |
| Commands.ExampleFieldsSpec | commands/command.go:137-146 | one field per example, in order |
| Commands.HelpCardShape | commands/command.go:102-146 | the description starts with the help text; Subcommands only with subcommands; Restrictions always; Examples and its fields only with examples |
| Commands.SubCommandEntryShape | commands/command.go:107-118 | an entry is the long name, "/alias" each, " <arg>" when set, in backquotes, then the description |
| Commands.BuildEntry | commands/command.go:107-118 | the loop builds SubCommandEntry |
| Commands.BuildEntries | commands/command.go:106-119 | the loop builds all entries in order |
| Commands.BuildDescription | commands/command.go:103-124 | the description up to the restrictions |
| Commands.BuildTitle | commands/command.go:126-134 | the title lists each alias as "/`alias`" |
| Commands.BuildExampleFields | commands/command.go:137-146 | the loop builds ExampleFields |
| Commands.DisplayHelp | commands/command.go:102-158 | the help card goes to the author's private channel, or nothing is sent when it cannot be opened |
| BotMessage.RunsOnlyWhenAllowed | bot/message.go:20-94 | a handler runs iff every check passes, with the words after the command name |
| BotMessage.HelpRunsNoHandler | bot/message.go:36-45 | help is answered before lookup: global help without argument, else the argument's help |
| BotMessage.PrivateRefusedBeforeAcl | bot/message.go:55-62 | in a private conversation a command without the capability is refused before the permission check |
| BotMessage.EarlyExits | bot/message.go:16-34 | messages failing the initial check are ignored; fewer than two words are only deleted |
| BotHandler.AgreesOutsidePrivate | bot/handler.go:21-109 | in a server channel the older pipeline decides like the newer one |
| BotHandler.AclOutcomes | bot/handler.go:65-78 | a permission error does not delete the message, a denial does, and neither runs the handler |
| BotHandler.ArgsRequiredHonoured | bot/handler.go:80-90 | a command needing arguments never runs without them |
| BotRouter.RouteSpec | bot/router.go:17-55 | fewer than two words get the usage text, an unknown word is ignored, handlers get the words after the command |
| BotRouter.AliasesAgree | bot/router.go:31-54 | a one-letter alias routes as its long name |
| BotRouter.ShuffleHandler | bot/router.go:57-63 | the queue is permuted with the head kept, every flag is unchanged, and the notice counts the tracks |
| BotRouter.AddHandler | bot/router.go:65-82 | usage without argument, refusal for non-SoundCloud links, else the trimmed link is queued |
| BotRouter.InfoHandler | bot/router.go:126-139 | with no argument the handler fails on the index; else a SoundCloud link is handled |
| BotRouter.PauseHandler | bot/router.go:95-105 | pause and resume only touch the stream, only while playing |
| BotRouter.StopHandler | bot/router.go:107-112 | while playing, stop is set and the session stopped |
| BotRouter.SkipHandler | bot/router.go:114-124 | while playing the session stops; when idle the next track is dropped |
| BotRouter.JoinHandler | bot/router.go:141-151 | joins when not connected; a failed join is fatal |
| BotRouter.LeaveHandler | bot/router.go:153-164 | the connection is dropped only when the disconnect succeeds |
| BotRouter.Dispatch | bot/router.go:31-54 | every route takes the step RouteStep gives it, which is the effect and new state of that route's handler |
| BotRouter.RouteStepChanges | bot/router.go:57-164 | only shuffle and skip touch the queue, only join and leave the connection, only play starts a loop, only pause and resume (while playing) the stream, only stop raises the stop flag; no route changes `playing` or `pause` |
| BotRouter.MessageCreated | bot/router.go:17-55 | an unacknowledged message changes nothing; otherwise the message is routed by its words and the bot takes exactly the step of that route's handler |
| BotQueue.Player.constructor | bot/bot.go:25-67 | an empty queue with every flag down |
| BotQueue.Player.QueueDuration | bot/queue.go:28-37 | the sum of the durations |
| BotQueue.Player.QueueSize | bot/queue.go:46-50 | the number of tracks |
| BotQueue.Player.Next | bot/queue.go:52-61 | the queue becomes PrependResult; every flag and the stop count unchanged |
| BotQueue.Player.Append | bot/queue.go:63-67 | the tracks are added at the end; every flag and the stop count unchanged |
| BotQueue.Player.Pop | bot/queue.go:69-75 | the head is removed, if any |
| BotQueue.Player.Loop | bot/queue.go:77-85 | the head moves to the tail; every flag and the stop count unchanged |
| BotQueue.Player.Get | bot/queue.go:87-94 | nil iff empty, else the head |
| BotQueue.Player.Shuffle | bot/queue.go:96-106 | a permutation that always keeps index 0 |
| BotQueue.Player.Clear | bot/queue.go:108-119 | the queue becomes ClearResult |
| BotInstance.Bot.constructor | bot/bot.go:25-67 | an idle player and a voice connection |
| BotInstance.Bot.PlayQueue | bot/player.go:13-16 | a loop is started only when not playing |
| BotControl.PlayHandler | bot/handlers_control.go:10-18 | nothing to do while playing, else a loop starts |
| BotControl.PauseHandler | bot/handlers_control.go:20-34 | pauses only a playing, unpaused player |
| BotControl.ResumeHandler | bot/handlers_control.go:36-50 | resumes only a playing, paused player, with the two "nothing to do" notices |
| BotControl.StopHandler | bot/handlers_control.go:52-67 | privileged and playing: stop; else a refusal or "nothing to do" |
| BotControl.SkipHandler | bot/handlers_control.go:69-89 | privileged only; while playing the session stops, when idle the next track is dropped |
| BotControl.JoinHandler | bot/handlers_control.go:91-109 | privileged only; connects when not connected; a failed join says why |
| BotControl.LeaveHandler | bot/handlers_control.go:111-133 | privileged only; stops a playing track, then disconnects; a failed disconnect says why; queue, `playing`, `pause` and the stream untouched |
| BotDisplay.StatsFieldsAgree | bot/display.go:13-43 | the older card's statistics are the newer card's first four fields |
| BotDisplay.SendNowPlaying | bot/display.go:13-43 | the card of the starting track, its footer counting the queue |
| BotDisplay.DisplayQueue | bot/display.go:45-82 | the whole queue card: listing, Tracks, Duration, "Requested by", and the tip footer (intended cut-off; see Findings) |
| BotPublic.AddHandler | bot/handlers_public.go:14-29 | usage without argument; a SoundCloud link is queued at the end; anything else refused |
| BotPublic.NextHandler | bot/handlers_public.go:33-48 | the same, at the start |
| BotPublic.AddNextAgree | bot/handlers_public.go:14-48 | add and next accept the same arguments and differ only in where the link goes |
| BotPublic.HelpPrivilegedOnly | bot/handlers_public.go:51-83 | a privileged author also sees the five privileged commands, and only they do |
| BotPublic.QueueHandler | bot/handlers_public.go:87-109 | show the whole queue card, shuffle (head kept), clear for privileged authors only, else "Unknown command"; the player's flags never change (intended cut-off; see Findings) |
| BotVote.VoteHolder.constructor | bot/vote.go:13-17 | an empty ballot |
| BotVote.VoteHolder.Reset | bot/vote.go:19-23 | the ballot is emptied |
| BotVote.RepeatedVoteIgnored | bot/vote.go:30-34 | a repeated vote changes nothing and gets no reply |
| BotVote.NewVoteCounted | bot/vote.go:35-63 | a new vote is counted; at two votes exactly one skip happens and the ballot empties |
| BotVote.BallotStaysSmall | bot/vote.go:25-64 | the ballot never holds more than one vote between calls |
| BotVote.TwoMembersSkip | bot/vote.go:25-64 | two different members skip; the same member twice does not |
| BotVote.VoteHandler | bot/vote.go:25-64 | the ballot, reply, session stop and queue are what VoteStep says; the other player flags and the stream are untouched |
| SoundCloudURL.CheckSpec | commands/add.go:23-31 | an accepted URL has the prefix and no surrounding brackets, and is accepted again unchanged |
| SoundCloudURL.WrappedLinkAccepted | commands/add.go:23-31 | a link in angle brackets is accepted as the bare link |
| GoStrings.AtoiItoa | commands/remove.go:28 | every 64-bit number printed with `%d` parses back with `strconv.Atoi` |
| GoStrings.TrimIdempotent | commands/add.go:24 | trimming twice equals trimming once |
| GoStrings.SplitJoin | commands/setup.go:59 | joining a split gives back the argument |
| CommandsPlayer.Play | commands/player.go:18-38 | a paused player is resumed, a playing one left alone, an idle one started |
| CommandsPlayer.Stop | commands/player.go:68-81 | nothing to do when idle, else the player is stopped |
| CommandsPlayer.Pause | commands/player.go:110-122 | "already paused" when paused, else the player's Pause |
| CommandsPlayer.Skip | commands/player.go:152-158 | always the player's Skip |
| CommandsPlayer.NowPlayingNilTrack | commands/player.go:186-211 | as written, a playing empty queue crashes after the timed "No track is currently playing" reply is sent; the intended handler never crashes and shows a card iff a track heads a playing queue |
| CommandsPlayer.NowPlaying | commands/player.go:186-211 | the intended handler: a refusal, or the head track's card with the queue count and duration |
| CommandsVolume.ParseVolumeSpec | commands/volume.go:25-57 | no argument shows; "reset" is 100; an accepted number is in 0–200, a refused one outside |
| CommandsVolume.PercentRoundTrip | commands/volume.go:39-57 | every accepted percentage, bare or with `%`, parses back to itself |
| CommandsVolume.VolumeReadBack | commands/volume.go:25-27 | a set percentage reads back as itself or one less: exact for multiples of 25; 30 reads as 29 |
| CommandsVolume.Handler | commands/volume.go:20-75 | show, refuse ("Invalid volume level" or out of range), or set the volume with the emoji for the level |
| CommandsRemove.ClassifySpec | commands/remove.go:20-35 | a count is a positive number Atoi reads; every positive number is a count of itself; zero or less is refused |
| CommandsRemove.RemoveHasArgument | commands/remove.go:49 | the command requires an argument, so the handler always has one |
| CommandsRemove.Handler | commands/remove.go:19-40 | "all", "a" or "-a" clears; a positive count removes that many; anything else is refused with the queue unchanged (intended RemoveN; see Findings) |
| CommandsQueue.Handler | commands/queue.go:18-38 | too short to shuffle: refused; shuffle: permuted and counted; otherwise the queue's whole "Current Queue" card, the queue unchanged (intended cut-off; see Findings) |
| CommandsSetup.ParseSetupSpec | commands/setup.go:59-64 | accepted iff the argument holds exactly one `=`; the value is the unquoted second part |
| CommandsSetup.ParseOneSep | commands/setup.go:59-64 | `param=raw` parses to param and the unquoted raw value |
| CommandsSetup.Unquote | commands/setup.go:64 | surrounding double quotes are removed |
| CommandsSetup.RefusedArguments | commands/setup.go:59-63 | "a=b=c" and "voice" are refused |
| CommandsSetup.Handler | commands/setup.go:22-80 | no state, no argument or a bad split: nothing saved; voice/text: the channel is set and the state saved even on failure; other parameters: a notice, nothing saved |
| CommandsAdd.InsertedKeepsAll | commands/add.go:39-57 | add and next queue every new track in order and lose nothing |
| CommandsAdd.Handler | commands/add.go:22-62 | a bad URL is refused; no player does nothing; a playlist first, then a single track, is appended (add) or prepended (next); otherwise the queue is unchanged |
| CommandsJam.SizeSpec | commands/jam.go:16-37 | the size is 1x unless medium/m (2x) or large/l (3x); the gif link is the prefix, the size and ".gif" |

## Left out

- Discord, SoundCloud and the database are not called. Their answers are inputs: channel lists, the guild and its roles, the stored guild state, provider results, join and disconnect errors, and the private channel. Sending, editing and deleting messages are returned as replies, cards or flags, or are not modelled.
- The playback loops (`player/play.go`, `bot/player.go`) are out, along with encoding, the voice connection and the stop channel. A loop start is counted, and a stop signal is a counter.
- Mutexes and goroutines are out. Operations run one at a time. The only exception is the self-deadlock in `RemoveN`, which is modelled as an outcome.
- Randomness is out: the shuffle's choices are a parameter, so only the permutation facts are proved.
- `durafmt`'s wording of durations is out. Such fields carry the milliseconds.
- Colours, timestamps, statistics (`commands/stats.go`, `player/stats.go`), favourites, storage and logging are out.
- Int64 overflow in duration sums and in `time.Duration` rounding is not modelled. Integers are unbounded. `strconv.Atoi`'s 64-bit range is modelled.
- `acl.RestrictionString`, which `bot/message.go` uses for its denial text, is not part of this model. The denial outcome carries the two restrictions instead.
- The players registry (`Players.GetPlayer`) is reduced to a possibly-null queue in `CommandsAdd.Handler`.
- `p.Playing()` is modelled as the state's Playing flag.
- PlayerDisplay.GeneratePlayerString requires a positive duration: for a zero-length track the source panics on the division `pb*100/dur` (player/display.go:26), and that panic is not modelled.
- PlayerDisplay.NowPlaying and PlayerDisplay.GenerateNowPlayingEmbed require the head track's duration to be positive, for the same reason.
- PlayerDisplay.NowPlaying signs the card "Added by " plus the SoundCloud username. `GetUser` (player/display.go:46) is declared only in the track interface (tracks/tracks.go:11), and its implementation is not part of this model. The avatar URL it also returns is left out.
- PlayerDisplay.NowPlaying starts from TrackEmbed, the model of the no-argument `Embed()` in tracks/soundcloud.go. player/display.go:47 calls `t.Embed(false)`, whose argument no declaration in this model takes.
- CommandsPlayer.NowPlaying: the footer's `DurationString` text is represented by the queue's duration in milliseconds.
- The command constructors (`commands/*.go` `New…Command`) are modelled as constant descriptors. Their `Player`, `Players` and logger fields are left out.
- Help texts are kept as written, except that string concatenations are joined.
- `InitializeAllCommands` and the registry it builds are left out; the message pipelines take the registry as an input.

## Findings

| source | as written | input that shows it | evidently intended | confidence | as-written member | corrected member |
|---|---|---|---|---|---|---|
| bot/display.go:52-59, player/queue.go:172-181 | the listing shows indices 0 to 10 (`i <= 10`), then reports `len-10` other tracks | a queue of 12 tracks: 11 listed, "And **2** other tracks" | ten listed tracks plus `len-10` others | high, not executed | QueueListing.TwelveTracksMiscounted | QueueListing.BuildListing |
| models/guild.go:57 | the condition compares the configuration's own guild ID (`c.ID`) with the value | channels "general" (c1) and "music" (c2), value "g" equal to the guild ID: c2 is chosen; value "c1": not found | compare the channel's ID (`ch.ID`), as guild/guild.go does | high, not executed | GuildConf.ChannelIDSlip | GuildConf.Conf.SetChannel |
| player/queue.go:150-156 | RemoveN holds the queue lock and calls Clear, which takes the same non-reentrant lock | `remove 5` on a queue of three tracks | the queue is cleared (Clear's result) | high, not executed | PlayerQueue.RemoveFiveOfThreeBlocks | PlayerQueue.Queue.RemoveN |
| commands/player.go:193-200 | after "No track is currently playing" for a nil track there is no return, so `t.Embed()` dereferences nil | `nowplaying` while Playing is set and the queue is empty | return after the notice | high, not executed | CommandsPlayer.NowPlayingNilTrack | CommandsPlayer.NowPlaying |
