# Emerald's Killfeed — verified model of the bot's core logic

This project models, in Dafny, the logic at the centre of the Discord
killfeed bot. It proves what that logic promises.

- **Kill-event pipeline** (`ScalableUnifiedProcessor`). Covers:
  - validation of raw kill-event dicts;
  - the per-killer sliding flood window (60 s, more than 5 flags);
  - the buffer, which flushes at 50 events and is drained in slices of 20;
  - the premium and flood gates, then the per-(guild, player, server) kill, death and suicide counters.
- **Automated-leaderboard registry** (`AutomatedLeaderboard.running_tasks`):
  - loading stored configurations;
  - the create and remove commands;
  - every exit path of a refresh task.
- **Character links** (`Link`): a duplicate-free list of 3-to-24-character names per (guild, user). The record is deleted when its list empties.
- **Player links** (`Linking`): at most one player name per (guild, user).
- **Statistics views**:
  - the kill/death ratio;
  - the totals over linked characters;
  - the consecutive rank numbering of leaderboard entries that survive type conversion.
- **Embed-factory helpers**:
  - inline sizing, progress bars, the performance-tier ladder;
  - ranking lines with thousands grouping, the stats dashboard figures;
  - mission-name normalisation, the range and threat classifications, and `build` routing.
- **The import blocker** (`DiscordPyBlocker.find_spec`, `create_module`).

Python's dynamic values are modelled by `PyBase.PyValue`. These rules are written out explicitly:

- truthiness;
- `isinstance` (a bool is an int);
- `dict.get` defaults;
- `str.strip`'s whitespace set;
- `str(int)`;
- `int(float)` truncation toward zero.

Stateful parts are classes whose fields the methods update: the buffer, the flood windows, the counter store and the event log, the running-task set, and the link tables. Each method is proved against a pure function of the old state; the lemmas about that function carry the properties.

Database managers are maps held in those fields. Each database answer becomes a parameter:

- whether the manager is present;
- the premium lookup, an oracle `int -> bool`;
- the current time;
- the results of Discord calls.

Three behaviours of the code to keep in mind:

- The drain task started by `on_ready` runs once. The comment at `bot/cogs/stats.py:13` describes `processing_interval` as the period of a drain when the buffer is not full, but nothing reads it, so nothing drains the buffer periodically.
- Empty strings pass event validation.
- `remove_leaderboard` cannot remove a running leaderboard (see Findings).

## Model

| member | source | states |
|---|---|---|
| KillEvents.ValidateKillEventSpec | bot/cogs/stats.py:42-63 | an event is accepted iff all seven fields are present and not None, guild_id is int or bool, the four names are str, timestamp is int/bool/float and is_suicide is exactly a bool |
| KillEvents.EncodeDecode | bot/cogs/stats.py:42-63 | every well-typed event record is accepted, and the fields the processing reads from it (stats.py:130-136) are the event it encodes |
| KillEvents.ValidationIgnoresOtherKeys | bot/cogs/stats.py:44-63 | keys other than the seven required ones never change the verdict or the decoded event |
| KillEvents.NoneFieldRejected | bot/cogs/stats.py:44-47 | a required field that is None or absent rejects the event at the first check |
| KillEvents.TypeChecksArePythons | bot/cogs/stats.py:50-61 | a bool guild id and empty names pass, a float guild id fails, an int timestamp passes, an int suicide flag fails |
| KillEvents.CheckKillEvent | bot/cogs/stats.py:42-63 | definition of the verdict (missing field, wrong type, accepted) in the code's order of checks; its contract is ValidateKillEventSpec, NoneFieldRejected and TypeChecksArePythons |
| KillEvents.ValidateKillEvent | bot/cogs/stats.py:42-63 | definition of `validate_kill_event`'s boolean; stated by ValidateKillEventSpec and EncodeDecode |
| KillEvents.Decode | bot/cogs/stats.py:130-136 | definition of the fields the processing reads out of an accepted event; stated by EncodeDecode and ValidationIgnoresOtherKeys |
| KillEvents.Prune | bot/cogs/stats.py:72 | the pruned window holds exactly the old timestamps t with now - t <= 60 and is no longer |
| KillEvents.PruneConcat | bot/cogs/stats.py:72 | pruning keeps the survivors in their original order (distributes over concatenation) |
| KillEvents.PruneKeepsRecent | bot/cogs/stats.py:72 | a window of recent timestamps is unchanged by pruning |
| KillEvents.PruneDropsStale | bot/cogs/stats.py:72 | a window of stale timestamps is emptied |
| KillEvents.FloodStep | bot/cogs/stats.py:65-79 | definition of one `is_flood` call on a killer's window; stated by FloodStepWindow, BurstVerdicts, SixthCallFlagged and QuietAfterWindow |
| KillEvents.FloodStepWindow | bot/cogs/stats.py:72-76 | after a call the window ends with now, holds only timestamps within 60 s, grows by at most one, and the verdict is its size above 5 |
| KillEvents.BurstVerdicts | bot/cogs/stats.py:65-79 | for calls at one instant, a call is flagged iff it brings the window above 5 |
| KillEvents.SixthCallFlagged | bot/cogs/stats.py:65-79 | from an empty window, calls 1-5 at one instant pass and the 6th is flagged |
| KillEvents.QuietAfterWindow | bot/cogs/stats.py:68-76 | once all recorded times are older than 60 s the next call starts a fresh window and is not flagged |
| KillEvents.ApplyKill | bot/cogs/stats.py:150-181 | definition of the counter update of one event; stated by ApplyKillEffect and ApplyKillGrows |
| KillEvents.ApplyKillEffect | bot/cogs/stats.py:150-181 | a suicide adds one suicide to the killer only; a kill adds a kill to the killer and a death to the victim; killer == victim in a kill nets one death and no kill; no other record changes; missing records read as zeros |
| KillEvents.ApplyKillGrows | bot/cogs/stats.py:150-181 | an event never lowers a counter or deletes a record |
| KillEvents.ProcessEvent | bot/cogs/stats.py:125-193 | definition of one `process_single_kill_event` on the counters, windows and log; stated by ProcessEventGates |
| KillEvents.ProcessAll | bot/cogs/stats.py:111-116 | definition of processing a run of events in order; stated by ProcessAllConcat, ProcessAllGrows and NonPremiumDrainIsNoop |
| KillEvents.ProcessEventGates | bot/cogs/stats.py:139-181 | a non-premium event touches nothing, not even the flood window; a flooding killer's event moves only its window; any other event is logged and counted |
| KillEvents.ProcessAllConcat | bot/cogs/stats.py:111-116 | processing two runs of events one after the other is processing their concatenation |
| KillEvents.ProcessAllGrows | bot/cogs/stats.py:111-181 | a drain never lowers a counter or deletes a record, and only appends to the event log |
| KillEvents.NonPremiumDrainIsNoop | bot/cogs/stats.py:139-141 | events of non-premium guilds leave windows, counters and log as they were |
| KillEvents.Slices | bot/cogs/stats.py:111-113 | definition of the cut of the buffer into batches of 20; stated by SlicesUnfold and SlicesSpec |
| KillEvents.SlicesUnfold | bot/cogs/stats.py:112-113 | each pass takes the first min(20, len) events and leaves the rest |
| KillEvents.SlicesSpec | bot/cogs/stats.py:111-113 | the slices are the consecutive runs of 20 at offsets 0, 20, 40, ..., ceil(len/20) of them, and concatenate to the buffer |
| KillEvents.UnifiedProcessor.constructor | bot/cogs/stats.py:8-17 | enabled, not running, empty buffer and flood windows |
| KillEvents.UnifiedProcessor.IsFlood | bot/cogs/stats.py:65-79 | only the killer's window changes, to the pruned window plus now; the result is its size above 5 |
| KillEvents.UnifiedProcessor.ProcessSingleKillEvent | bot/cogs/stats.py:125-193 | windows, counters and log become what the premium gate, flood gate and counter update give |
| KillEvents.UnifiedProcessor.ProcessKillEvents | bot/cogs/stats.py:95-123 | enabled, ready and with a database: the buffer ends empty, the slices are those of the old buffer and its events are processed in order; otherwise nothing changes |
| KillEvents.UnifiedProcessor.Drain | bot/cogs/stats.py:108-118 | the while loop empties the buffer slice by slice, processing every event in the original order |
| KillEvents.UnifiedProcessor.ProcessBatch | bot/cogs/stats.py:115-116 | a slice's events are processed one after the other, in order |
| KillEvents.UnifiedProcessor.AddKillEvent | bot/cogs/stats.py:81-93 | disabled or invalid: nothing changes; otherwise the event is appended, and at 50 or more a drain of the whole buffer runs |
| KillEvents.UnifiedProcessor.ToggleProcessor | bot/cogs/stats.py:197-202 | the flag flips and the reported status names the new state |
| KillEvents.UnifiedProcessor.FlushBuffer | bot/cogs/stats.py:206-216 | reports the buffer's size before the drain, whether or not the drain ran |
| KillEvents.UnifiedProcessor.OnReady | bot/cogs/stats.py:19-25 | the first call runs one drain and marks the processor running; later calls change nothing |
| Leaderboards.ConfigTask | bot/cogs/stats.py:249-273 | definition of the task one stored configuration starts, None when the truthiness check fails; stated by ConfigIdsWellFormed |
| Leaderboards.LoadIds | bot/cogs/stats.py:240-293 | definition of the task tuples `cog_load` registers, guild by guild, up to the first guild with a truthy id whose `automated_leaderboards` cannot be iterated; stated by LoadIdsWellFormed, LoadIdsConcat, LoadIdsStopsAtAbort and CogLoad |
| Leaderboards.ConfigIdsWellFormed | bot/cogs/stats.py:249-273 | every task a guild's configurations start has a truthy guild, channel, type and server, and a hashable type and server |
| Leaderboards.LoadIdsWellFormed | bot/cogs/stats.py:240-275 | the same holds for every task loaded from all guild documents |
| Leaderboards.LoadIdsConcat | bot/cogs/stats.py:247-293 | loading two runs of guild documents one after the other is loading their concatenation, except that once a guild of the first run stops the loading, the second adds nothing |
| Leaderboards.LoadIdsStopsAtAbort | bot/cogs/stats.py:249-293 | a guild with a truthy id and a list that cannot be iterated ends the loading: no guild after it contributes a task |
| Leaderboards.ConfigIdsFalsyGuild | bot/cogs/stats.py:250-252 | a guild document with a falsy id starts no task, whatever its list holds |
| Leaderboards.ServerOrDefault | bot/cogs/stats.py:403 | the server id is never empty: the given server if it is non-empty, and "default" exactly when it is None or empty |
| Leaderboards.AutomatedLeaderboard.constructor | bot/cogs/stats.py:234-238 | the registry starts empty |
| Leaderboards.AutomatedLeaderboard.CogLoad | bot/cogs/stats.py:240-294 | without a database nothing starts; otherwise the registry gains exactly the tasks LoadIds gives (the configurations that pass the checks, up to the guild whose list cannot be iterated), each started once, none already running |
| Leaderboards.AutomatedLeaderboard.CreateLeaderboard | bot/cogs/stats.py:390-445 | refuses iff the interval is outside 1..720, then iff the tuple is running, then iff the database is missing; otherwise adds exactly the tuple |
| Leaderboards.AutomatedLeaderboard.RemoveLeaderboard | bot/cogs/stats.py:449-491 | as intended: refuses iff the tuple is not running; otherwise discards it, with or without a database |
| Leaderboards.AutomatedLeaderboard.RemoveLeaderboardAsWritten | bot/cogs/stats.py:465-491 | as written: fails and keeps the tuple iff it is registered and any refresh task is pending |
| Leaderboards.AutomatedLeaderboard.RunLeaderboardTask | bot/cogs/stats.py:296-384 | every exit (guild missing, bad channel, database gone, failed send, an interval that is not a number, cancellation) discards the task's own tuple; the guild and channel exits happen exactly when their checks fail; a non-number interval ends the task right after its first pass (the sleep at 376 raises, 380-382 catch and discard); with a numeric interval, the database present at every pass and every send succeeding, the task runs until cancelled; with a numeric interval and every send succeeding it ends for a missing database exactly when some pass lacks one; stored message ids come from sends |
| Leaderboards.RemovalFailsWhileTaskPending | bot/cogs/stats.py:470-477 | after a create, the as-written removal fails and keeps the tuple, while the intended removal discards it |
| CharacterLinks.RemoveFirst | bot/cogs/stats.py:577 | `list.remove` drops one occurrence: one shorter, multiset minus the name |
| CharacterLinks.RemoveFirstNoDuplicates | bot/cogs/stats.py:572-577 | in a duplicate-free list the name is gone afterwards, every other name stays, and the list stays duplicate-free |
| CharacterLinks.LinkStep | bot/cogs/stats.py:514-551 | definition of the effect of `/link` on the table; stated by LinkStepSpec, LinkKeepsValid and LinkThenUnlink |
| CharacterLinks.UnlinkStep | bot/cogs/stats.py:554-591 | definition of the effect of `/unlink` on the table; stated by UnlinkStepSpec, UnlinkKeepsValid and LinkThenUnlink |
| CharacterLinks.LinkStepSpec | bot/cogs/stats.py:521-547 | refuses iff the stripped name is outside 3..24, or is already linked; otherwise appends it or creates a one-name record; other keys unchanged |
| CharacterLinks.LinkKeepsValid | bot/cogs/stats.py:523-545 | linking keeps every list non-empty, duplicate-free and made of stripped 3-24 character names |
| CharacterLinks.UnlinkStepSpec | bot/cogs/stats.py:563-584 | on a valid table: refuses with "no links" iff the user has no record, with "not linked" iff the stripped name is not in the list, and then changes nothing; a successful unlink removes only that name, every other name of the user stays, the record goes exactly when the name was its only one; other users' records are unchanged |
| CharacterLinks.UnlinkKeepsValid | bot/cogs/stats.py:563-584 | unlinking keeps every list non-empty, duplicate-free and made of stored names, and after a successful unlink the name is linked no more |
| CharacterLinks.LinkThenUnlink | bot/cogs/stats.py:530-584 | linking a new name and unlinking it restores the table |
| CharacterLinks.Link.constructor | bot/cogs/stats.py:510-511 | the table starts as given, and every list in it is valid |
| CharacterLinks.Link.LinkCharacter | bot/cogs/stats.py:513-551 | outcome and new table are those of LinkStep for key (guild or 0, user); every list stays non-empty, duplicate-free and made of stored names |
| CharacterLinks.Link.UnlinkCharacter | bot/cogs/stats.py:553-591 | outcome and new table are those of UnlinkStep for key (guild or 0, user), whose refusals, removal and frame UnlinkStepSpec states; every list stays non-empty, duplicate-free and made of stored names |
| PlayerLinking.LinkStep | bot/cogs/linking.py:14-44 | definition of the effect of `/link` on the player table; stated by LinkStepSpec and LinkThenUnlink |
| PlayerLinking.UnlinkStep | bot/cogs/linking.py:47-71 | definition of the effect of `/unlink` on the player table; stated by UnlinkStepSpec and LinkThenUnlink |
| PlayerLinking.LinkStepSpec | bot/cogs/linking.py:20-40 | refuses without a database, for an empty name or a stripped name under 3, and when a link exists (never overwritten); no upper bound; success stores the stripped name under the key only |
| PlayerLinking.UnlinkStepSpec | bot/cogs/linking.py:52-66 | refuses without a database or a link; otherwise removes exactly that key |
| PlayerLinking.LinkThenUnlink | bot/cogs/linking.py:33-66 | on an unlinked key, link then unlink restores the table |
| PlayerLinking.Linking.constructor | bot/cogs/linking.py:10-11 | the table starts as given |
| PlayerLinking.Linking.Link | bot/cogs/linking.py:14-44 | outcome and new table are those of LinkStep |
| PlayerLinking.Linking.Unlink | bot/cogs/linking.py:47-71 | outcome and new table are those of UnlinkStep |
| StatViews.Kdr | bot/cogs/stats.py:688 | with deaths, ratio times deaths equals kills; without, the ratio is the kills |
| StatViews.KdrBelowOne | bot/cogs/stats.py:750 | with deaths and non-negative kills the ratio is non-negative, and below one iff kills < deaths |
| StatViews.KdrMonotoneInKills | bot/cogs/stats.py:750 | more kills never lower the ratio at a fixed death count |
| StatViews.TotalsOf | bot/cogs/stats.py:742-748 | definition of the kill and death totals over linked characters, None when a count is not a number; stated by TotalsAppend, TotalsNonNegative, NoneStaysNone and CombinedKdr |
| StatViews.TotalsAppend | bot/cogs/stats.py:742-748 | the totals are additive over characters; a missing or empty stats document adds nothing, a non-number count fails the command |
| StatViews.TotalsNonNegative | bot/cogs/stats.py:680-688 | with non-negative stored counts the totals and their ratio are non-negative |
| StatViews.NoneStaysNone | bot/cogs/stats.py:742-748 | once the running totals fail they fail for the whole list |
| StatViews.CombinedKdr | bot/cogs/stats.py:742-750 | the loop's totals and ratio are those of the totals function, and it fails exactly when that does |
| StatViews.IntTextRoundTrip | bot/cogs/stats.py:908-909 | `int(str(i)) == i` for every int: the text case of `int(v)` inverts `str` |
| StatViews.ParseIntText | bot/cogs/stats.py:908-909 | definition of `int()` of a string (surrounding whitespace, an optional sign, decimal digits); stated by IntTextRoundTrip |
| StatViews.PyIntOf | bot/cogs/stats.py:908-909 | definition of `int(v)` on every kind of value, None where Python raises; stated by IntTextRoundTrip |
| StatViews.PyFloatOf | bot/cogs/stats.py:910 | definition of `float(v)` on every kind of value, None where Python raises; stated by ValidatedAppend |
| StatViews.ConvertEntry | bot/cogs/stats.py:906-912 | definition of the converted entry literal, None where a conversion raises; stated by ValidatedAppend and ValidatedRanks |
| StatViews.Validated | bot/cogs/stats.py:903-916 | definition of the entries that survive conversion, ranked in order; stated by ValidatedRanks, ValidatedAppend and RankLeaderboard |
| StatViews.ValidatedRanks | bot/cogs/stats.py:903-916 | surviving entries are ranked 1, 2, 3, ... with no gaps, however many were skipped, and are no more than the input |
| StatViews.ValidatedAppend | bot/cogs/stats.py:903-916 | an entry that fails conversion is skipped; one that converts is appended with the next rank |
| StatViews.RankLeaderboard | bot/cogs/stats.py:903-916 | the loop gives exactly the validated, ranked entries |
| EmbedFactory.StripMarkup | bot/utils/embed_factory.py:18 | the cleaned text is no longer and holds no `*`, backtick, `_`, `~`, `<`, `>`, `:` |
| EmbedFactory.StripMarkupCounts | bot/utils/embed_factory.py:18 | every character other than those seven occurs in the cleaned text exactly as often as in the original |
| EmbedFactory.StripMarkupPlain | bot/utils/embed_factory.py:18 | text without markup is left unchanged |
| EmbedFactory.StripMarkupOnlyMarkup | bot/utils/embed_factory.py:18 | text made only of markup is cleaned to the empty string |
| EmbedFactory.StripMarkupAppend | bot/utils/embed_factory.py:18 | cleaning distributes over concatenation, so kept characters stay in order |
| EmbedFactory.InlineSpec | bot/utils/embed_factory.py:16-19 | a value within the limit is inline; a value without markup is inline exactly when it is within the limit; inserted markup never changes the decision; cleaning is idempotent |
| EmbedFactory.ShouldUseInline | bot/utils/embed_factory.py:16-19 | definition of the inline decision; stated by InlineSpec |
| EmbedFactory.Percentage | bot/utils/embed_factory.py:79 | the percentage is the ratio times 100 or the cap 100, whichever is smaller |
| EmbedFactory.FilledLength | bot/utils/embed_factory.py:80 | definition of the filled length, truncated toward zero; stated by ProgressBarSpec |
| EmbedFactory.Bar | bot/utils/embed_factory.py:82-87 | `length` glyphs (none below 1), full exactly before the filled position |
| EmbedFactory.ProgressBarSpec | bot/utils/embed_factory.py:79-87 | exactly `length` glyphs; full ones form a prefix of the filled length, never more than the bar; a non-positive value fills nothing |
| EmbedFactory.ZeroMaximumBar | bot/utils/embed_factory.py:76-77 | a zero maximum gives only empty glyphs |
| EmbedFactory.FillBar | bot/utils/embed_factory.py:82-87 | the for loop builds exactly the bar |
| EmbedFactory.CreateProgressBar | bot/utils/embed_factory.py:74-89 | zero maximum: empty bar and 0%; otherwise the capped percentage and the bar of its filled length |
| EmbedFactory.PerformanceTier | bot/utils/embed_factory.py:92-103 | definition of the tier ladder; stated by TierSpec and TierMonotone |
| EmbedFactory.TierSpec | bot/utils/embed_factory.py:92-103 | first matching rung: recruit iff ratio < 1; elite iff 3.0/100; at least veteran iff 2.0/50; at least experienced iff 1.5/25 |
| EmbedFactory.TierMonotone | bot/utils/embed_factory.py:92-103 | a better ratio and more kills never give a lower tier |
| EmbedFactory.GroupThousands | bot/utils/embed_factory.py:114 | definition of `f"{n:,}"`; stated by GroupThousandsDigits, GroupThousandsLayout and GroupThousandsHasComma |
| EmbedFactory.FormatValue | bot/utils/embed_factory.py:111-116 | definition of the value text of a ranking line; stated by IntValueText and RankingDisplayParts |
| EmbedFactory.GroupThousandsDigits | bot/utils/embed_factory.py:114 | deleting the commas of `f"{n:,}"` gives `str(n)` |
| EmbedFactory.GroupThousandsHasComma | bot/utils/embed_factory.py:114 | numbers of 1000 and more are printed with a comma |
| EmbedFactory.GroupThousandsLayout | bot/utils/embed_factory.py:114 | `f"{n:,}"` is `str(n)` with one comma per full group of three digits left of the last three: its length is len(str(n)) + (len(str(n)) - 1) // 3, a comma stands exactly at every fourth position counted from the end (never first), and every other position is a digit |
| EmbedFactory.IntValueText | bot/utils/embed_factory.py:111-116 | an int value reads back as `str(value)` without commas, and has a comma iff it is at least 1000 |
| EmbedFactory.RankingDisplay | bot/utils/embed_factory.py:106-119 | a ranking line opens with its rank's symbol |
| EmbedFactory.RankingDisplayParts | bot/utils/embed_factory.py:106-119 | the line is symbol, " **", name, "** •", value, metric at fixed offsets |
| EmbedFactory.RankingLines | bot/utils/embed_factory.py:172-181 | one line per entry of the first ten, ranked from 1 |
| EmbedFactory.SurvivalRate | bot/utils/embed_factory.py:126-128 | definition of the survival rate; stated by DashboardBounds |
| EmbedFactory.Efficiency | bot/utils/embed_factory.py:129 | definition of the efficiency rating; stated by DashboardBounds |
| EmbedFactory.FormatStatsDashboard | bot/utils/embed_factory.py:122-145 | definition of the dashboard figures, bars and tier; stated by DashboardBounds |
| EmbedFactory.DashboardBounds | bot/utils/embed_factory.py:122-145 | survival is 0 without engagements and in [0, 100] for non-negative counts; efficiency is at most 100; both bars have 8 glyphs |
| EmbedFactory.ClassifyRange | bot/utils/embed_factory.py:414-422 | definition of the range classes; stated by RangeSpec |
| EmbedFactory.RangeSpec | bot/utils/embed_factory.py:414-422 | each range class is one distance band (500/200/50), monotone in distance |
| EmbedFactory.ThreatDisplay | bot/utils/embed_factory.py:452-460 | definition of the threat lookup, None where the lookup raises; stated by ThreatSpec |
| EmbedFactory.ThreatSpec | bot/utils/embed_factory.py:452-460 | levels numerically equal to 1-4 get their label, other hashable levels UNKNOWN, lists and dicts raise |
| EmbedFactory.UnderscoresToSpaces | bot/utils/embed_factory.py:534 | every `_` becomes a space, all else kept |
| EmbedFactory.Title | bot/utils/embed_factory.py:534 | definition of `str.title` on ASCII letters; stated by TitleOnlyChangesCase and TitleIdempotent |
| EmbedFactory.TitleOnlyChangesCase | bot/utils/embed_factory.py:534 | title-casing changes only letter case |
| EmbedFactory.TitleIdempotent | bot/utils/embed_factory.py:534 | title-casing is idempotent |
| EmbedFactory.NormalizeMissionName | bot/utils/embed_factory.py:524-534 | definition of the mission-name lookup with its fallback; stated by MissionNameSpec |
| EmbedFactory.MissionNameSpec | bot/utils/embed_factory.py:524-534 | a known id gives its table name; any other id keeps its length, loses every `_`, differs only in case and is in title case |
| EmbedFactory.BuildRoute | bot/utils/embed_factory.py:538-551 | definition of the builder `build` routes to; stated by BuildRouteSpec |
| EmbedFactory.BuildRouteSpec | bot/utils/embed_factory.py:538-551 | exactly the four named types get dedicated builders; 'advanced_stats' and every other type get the generic one |
| ImportBlocker.ContainsAt | discord_py_blocker.py:44 | `sub in s` iff sub starts at some position of s |
| ImportBlocker.Initial | discord_py_blocker.py:17-35 | definition of the finder `__init__` builds; stated by InitialBlockedParts, AllowedMeansDiscordPrefix and InitialFindSpec |
| ImportBlocker.FindSpec | discord_py_blocker.py:38-48 | definition of `find_spec`'s answer; stated by FindSpecSpec, InitialFindSpec and BlockerExamples |
| ImportBlocker.CreateModule | discord_py_blocker.py:50-51 | definition of `create_module`, which always answers None and so leaves module creation to the default |
| ImportBlocker.FindSpecSpec | discord_py_blocker.py:38-48 | an allowed prefix defers; refusal iff no allowed prefix and a blocked part; the message names the module; path and target are ignored |
| ImportBlocker.AllowedMeansDiscordPrefix | discord_py_blocker.py:24-41 | with the initial sets a name has an allowed prefix iff it begins with "discord" |
| ImportBlocker.InitialBlockedParts | discord_py_blocker.py:19-22 | the initial blocked parts are "discord.py" and "discord_py" |
| ImportBlocker.InitialFindSpec | discord_py_blocker.py:38-48 | refusal iff the name does not begin with "discord" and contains "discord.py" or "discord_py" |
| ImportBlocker.BlockerExamples | discord_py_blocker.py:40-46 | "discord.py" and "discord_py" themselves are let through; "x.discord_py" is refused |

## Left out

- Discord I/O is left out. This covers `defer`, `respond` and `followup` messages, embed and file construction, and message fetch, edit and send. Their results are parameters: `Tick` for a refresh pass, and `guildFound`, `channelIsText`, `fetchOk` and `sent`.
- asyncio concurrency is left out. The model runs in order the events of one slice that `asyncio.gather` runs together. It does not capture lost updates between interleaved read-modify-writes, adds racing a drain, `create_task` scheduling or `asyncio.sleep`.
- `is_premium` is left out. Its `hasattr` lookup on managers outside this model is a parameter `premium: int -> bool`, which fails closed to false.
- Database managers are modelled as maps and sets held by the classes. Exceptions raised inside them are not modelled; the code catches and logs them.
- A partial write is not modelled. This is the case where recording an event succeeds and a counter write then fails.
- `datetime.utcnow()` is left out. The time is a parameter `now`, read once per drain rather than once per event.
- Float formatting and parsing are parameters: `:.2f` (`fixed2`), `repr(float)` (`floatRepr`) and `float(str)` (`parseFloat`). Float rounding, NaN and infinity are not modelled, because numbers are `real`. The percentage text after a progress bar is not modelled.
- StatViews.ParseIntText does not accept underscores between digits or non-ASCII digits, although Python's `int()` accepts both. It never raises OverflowError.
- EmbedFactory.Title title-cases ASCII letters only. Python's `str.title` also changes the case of non-ASCII letters.
- EmbedFactory.ShouldUseInline takes a string. It does not model the `str()` applied to a non-string field value.
- `DiscordPyBlocker.exec_module` is left out because it does nothing.
- `install_discord_py_blocker` is left out. It imports modules, inspects files and edits `sys.meta_path`.
- The premium, economy, core and admin-channel cogs are left out. So are the help, utilities and profile presentation, and the constant random-title lists of the embed factory. They send messages and hold no logic of their own.
- Persistence of leaderboard configurations is left out (`add_automated_leaderboard`, `remove_automated_leaderboard`, `update_leaderboard_message_id`).
- `Leaderboards.TaskId` compares its type and server by their Python type. So it does not model Python's `True == 1 == 1.0` equality across numeric types inside a task tuple.
- KillEvents.UnifiedProcessor.AddKillEvent buffers the event's value. The code appends the caller's dict itself, so a caller that changes the dict after `add_kill_event` returns changes what the drain reads; an event accepted by validation can then fail at the field reads of `process_single_kill_event`. That aliasing is not modelled.
- Leaderboards.AutomatedLeaderboard.RunLeaderboardTask states the failed-send exit one way only: whether a pass sends at all depends on the message carried over from earlier passes, so "some send fails" does not by itself decide the exit.
- Leaderboards.GuildDoc holds its configurations as documents. A stored entry that is not a dict raises AttributeError at `config.get`, which the per-configuration handler catches, so such an entry starts no task; the model leaves it out of the list.
- `Link.link` and `Link.unlink` assume a database manager is present. Without one, the attribute access raises and the command reports a failure with nothing changed. The model does not include that branch.

## Findings

| source | as written | input that shows it | evidently intended | confidence | as-written member | corrected member |
|---|---|---|---|---|---|---|
| bot/cogs/stats.py:470-477 | before discarding the tuple, `remove_leaderboard` reads `task.get_coro().__defaults__` for every pending `run_leaderboard_task` task; coroutine objects have no `__defaults__`, so the AttributeError is caught and the command answers "Failed to remove leaderboard." without discarding | create a leaderboard (its refresh task is now pending in its sleep), then remove it with the same channel, type and server | cancel the matching task and discard the tuple, then drop the stored configuration | not executed | Leaderboards.AutomatedLeaderboard.RemoveLeaderboardAsWritten, Leaderboards.RemovalFailsWhileTaskPending | Leaderboards.AutomatedLeaderboard.RemoveLeaderboard |
