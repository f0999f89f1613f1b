/** The automated-leaderboard registry of the statistics cog
    (AutomatedLeaderboard): the set of running refresh tasks, filled from the
    stored configurations at load time and by the create command, emptied by
    the remove command and by every exit of a refresh task. */
module Leaderboards {
  import opened PyBase

  /** (guild_id, channel_id, leaderboard_type, server_id). The last two are
      whatever the stored configuration held, so they keep their Python type. */
  type TaskId = (int, int, PyValue, PyValue)

  const MinInterval: int := 1
  const MaxInterval: int := 720
  const DefaultServer: string := "default"
  const DefaultInterval: int := 24

  /** A stored guild document: its `_id` and its `automated_leaderboards`
      value (an absent field reads as the empty list). None stands for a stored
      value that cannot be iterated (None, a number, a bool). */
  datatype GuildDoc = GuildDoc(id: PyValue, leaderboards: Option<seq<Doc>>)

  /** A refresh task started at load time, with the arguments it is started with. */
  datatype TaskStart = TaskStart(id: TaskId, updateInterval: PyValue, messageId: PyValue)

  /** The task a stored configuration of a guild starts, if it passes the load
      checks: a truthy guild id, truthy channel, type, server and interval
      (server defaulting to "default", interval to 24), and int guild and
      channel ids. A list or dict as type or server makes the task tuple
      unhashable; the membership test raises and the configuration is skipped. */
  function ConfigTask(guildId: PyValue, config: Doc): Option<TaskStart>
  {
    var channelId := Get(config, "channel_id", PyNone);
    var lbType := Get(config, "leaderboard_type", PyNone);
    var serverId := Get(config, "server_id", PyStr(DefaultServer));
    var interval := Get(config, "update_interval", PyInt(DefaultInterval));
    var messageId := Get(config, "message_id", PyNone);
    if !Truthy(guildId) then None
    else if !(Truthy(channelId) && Truthy(lbType) && Truthy(serverId) && Truthy(interval)) then None
    else if !IsInt(guildId) || !IsInt(channelId) then None
    else if lbType.PyContainer? || serverId.PyContainer? then None
    else Some(TaskStart((AsInt(guildId), AsInt(channelId), lbType, serverId), interval, messageId))
  }

  /** The task ids the first configurations of a guild give. */
  function ConfigIds(guildId: PyValue, configs: seq<Doc>): set<TaskId>
  {
    if configs == [] then {}
    else
      var last := ConfigTask(guildId, configs[|configs| - 1]);
      ConfigIds(guildId, configs[..|configs| - 1]) + (if last.Some? then {last.value.id} else {})
  }

  /** The task ids the configurations of one guild give; a guild whose list
      cannot be iterated gives none. */
  function GuildIds(g: GuildDoc): set<TaskId>
  {
    if g.leaderboards.Some? then ConfigIds(g.id, g.leaderboards.value) else {}
  }

  /** A guild that stops the loading: its id is truthy, so the `for` over its
      list is reached, and that list cannot be iterated. The TypeError escapes
      the per-configuration handler and ends `cog_load`. */
  predicate Aborts(g: GuildDoc)
  {
    Truthy(g.id) && g.leaderboards.None?
  }

  predicate AnyAborts(guilds: seq<GuildDoc>)
  {
    exists k :: 0 <= k < |guilds| && Aborts(guilds[k])
  }

  /** The task ids the stored configurations of the given guilds give, up to
      the first guild that stops the loading. */
  function LoadIds(guilds: seq<GuildDoc>): set<TaskId>
  {
    if guilds == [] then {}
    else
      var prior := guilds[..|guilds| - 1];
      LoadIds(prior) + (if AnyAborts(prior) then {} else GuildIds(guilds[|guilds| - 1]))
  }

  /** A guild with a falsy id is skipped, whatever its list holds. */
  lemma {:induction false} ConfigIdsFalsyGuild(guildId: PyValue, configs: seq<Doc>)
    requires !Truthy(guildId)
    ensures ConfigIds(guildId, configs) == {}
  {
    if configs != [] {
      ConfigIdsFalsyGuild(guildId, configs[..|configs| - 1]);
    }
  }

  /** Loading the guilds of `a` and then those of `b` is loading `a + b`,
      except that once a guild of `a` stops the loading, `b` adds nothing. */
  lemma {:induction false} LoadIdsConcat(a: seq<GuildDoc>, b: seq<GuildDoc>)
    ensures LoadIds(a + b) == LoadIds(a) + (if AnyAborts(a) then {} else LoadIds(b))
    decreases |b|
  {
    if b == [] {
      assert a + b == a;
    } else {
      var b' := b[..|b| - 1];
      assert (a + b)[..|a + b| - 1] == a + b';
      LoadIdsConcat(a, b');
      if !AnyAborts(a) {
        if AnyAborts(a + b') {
          var k :| 0 <= k < |a + b'| && Aborts((a + b')[k]);
          assert Aborts(b'[k - |a|]);
        }
        if AnyAborts(b') {
          var k :| 0 <= k < |b'| && Aborts(b'[k]);
          assert Aborts((a + b')[|a| + k]);
        }
      } else {
        var k :| 0 <= k < |a| && Aborts(a[k]);
        assert Aborts((a + b')[k]);
      }
    }
  }

  /** The guilds after the first one that stops the loading are never loaded. */
  lemma LoadIdsStopsAtAbort(guilds: seq<GuildDoc>, i: nat)
    requires i < |guilds| && Aborts(guilds[i])
    ensures LoadIds(guilds) == LoadIds(guilds[..i])
  {
    var a := guilds[..i + 1];
    assert guilds == a + guilds[i + 1..];
    assert AnyAborts(a) by {
      assert Aborts(a[i]);
    }
    LoadIdsConcat(a, guilds[i + 1..]);
    assert LoadIds(a) == LoadIds(guilds[..i]) by {
      assert a[..|a| - 1] == guilds[..i];
      assert GuildIds(a[|a| - 1]) == {};
    }
  }

  /** One more configuration adds its own task id, if it gives one. */
  lemma ConfigIdsStep(guildId: PyValue, configs: seq<Doc>, j: nat)
    requires j < |configs|
    ensures var t := ConfigTask(guildId, configs[j]);
      ConfigIds(guildId, configs[..j + 1]) == ConfigIds(guildId, configs[..j]) + (if t.Some? then {t.value.id} else {})
  {
    assert configs[..j + 1][..j] == configs[..j];
  }

  /** One more guild, with no guild before it stopping the loading, adds the
      ids of all its configurations. */
  lemma LoadIdsStep(guilds: seq<GuildDoc>, i: nat)
    requires i < |guilds| && !AnyAborts(guilds[..i])
    ensures LoadIds(guilds[..i + 1]) == LoadIds(guilds[..i]) + GuildIds(guilds[i])
    ensures !Aborts(guilds[i]) ==> !AnyAborts(guilds[..i + 1])
  {
    assert guilds[..i + 1][..i] == guilds[..i];
  }

  /** The ids of the given started tasks. */
  function StartedIds(started: seq<TaskStart>): (ids: set<TaskId>)
    ensures forall k :: 0 <= k < |started| ==> started[k].id in ids
  {
    if started == [] then {}
    else StartedIds(started[..|started| - 1]) + {started[|started| - 1].id}
  }

  /** The tasks started so far: none was running before, no two share an id,
      and their ids are exactly what the registry gained. */
  predicate StartedFresh(started: seq<TaskStart>, before: set<TaskId>, running: set<TaskId>)
  {
    && (forall k :: 0 <= k < |started| ==> started[k].id !in before)
    && (forall a, b :: 0 <= a < b < |started| ==> started[a].id != started[b].id)
    && StartedIds(started) == running - before
  }

  /** Starting a task whose id is not running keeps the started tasks fresh. */
  lemma StartFresh(started: seq<TaskStart>, t: TaskStart, before: set<TaskId>, running: set<TaskId>)
    requires StartedFresh(started, before, running) && before <= running && t.id !in running
    ensures StartedFresh(started + [t], before, running + {t.id})
  {
    var next := started + [t];
    assert next[..|started|] == started;
    forall k | 0 <= k < |started|
      ensures started[k].id in running
    {
    }
  }

  /** A task id with non-zero guild and channel ids and a truthy, hashable
      type and server. */
  predicate WellFormedId(id: TaskId)
  {
    id.0 != 0 && id.1 != 0 && Truthy(id.2) && Truthy(id.3) && !id.2.PyContainer? && !id.3.PyContainer?
  }

  lemma {:induction false} ConfigIdsWellFormed(guildId: PyValue, configs: seq<Doc>)
    ensures forall id :: id in ConfigIds(guildId, configs) ==> WellFormedId(id)
  {
    if configs != [] {
      ConfigIdsWellFormed(guildId, configs[..|configs| - 1]);
    }
  }

  /** Every task loaded from storage has a non-zero guild and channel id and a
      truthy, hashable type and server: the load filters let no falsy field
      through. */
  lemma {:induction false} LoadIdsWellFormed(guilds: seq<GuildDoc>)
    ensures forall id :: id in LoadIds(guilds) ==> WellFormedId(id)
  {
    if guilds != [] {
      LoadIdsWellFormed(guilds[..|guilds| - 1]);
      var g := guilds[|guilds| - 1];
      if g.leaderboards.Some? {
        ConfigIdsWellFormed(g.id, g.leaderboards.value);
      }
    }
  }

  /** `server or 'default'` */
  function ServerOrDefault(server: Option<string>): (s: string)
    ensures s != ""
    ensures server.Some? && server.value != "" ==> s == server.value
    ensures !(server.Some? && server.value != "") ==> s == DefaultServer
  {
    if server.Some? && server.value != "" then server.value else DefaultServer
  }

  datatype CreateOutcome = Created(id: TaskId) | IntervalOutOfRange | AlreadyRunning | DatabaseUnavailable

  datatype RemoveOutcome = NotRunning | RemovedWithoutDatabase | Removed | RemoveFailed

  /** How `message.edit` ended. */
  datatype EditOutcome = Edited | MessageNotFound | EditFailed

  /** What the outside world answers during one pass of a refresh loop:
      whether the database manager is there, whether the query or the embed
      construction raised, whether there was data, whether the embed factory
      produced an embed, how an edit of the current message ends, and the id
      of the message a send creates (None when the send or the id update
      raises). */
  datatype Tick = Tick(
    dbPresent: bool, queryFailed: bool, hasData: bool, embedBuilt: bool,
    edit: EditOutcome, sent: Option<int>)

  /** Every stored message id is the id of a message some pass sent. */
  predicate FromSends(savedIds: seq<int>, ticks: seq<Tick>)
  {
    forall k :: 0 <= k < |savedIds| ==> exists i :: 0 <= i < |ticks| && ticks[i].sent == Some(savedIds[k])
  }

  /** Storing the id of the message a pass sent keeps every stored id a sent one. */
  lemma SendSaved(savedIds: seq<int>, ticks: seq<Tick>, i: int)
    requires FromSends(savedIds, ticks) && 0 <= i < |ticks| && ticks[i].sent.Some?
    ensures FromSends(savedIds + [ticks[i].sent.value], ticks)
  {
    var s := savedIds + [ticks[i].sent.value];
    forall k | 0 <= k < |s|
      ensures exists j :: 0 <= j < |ticks| && ticks[j].sent == Some(s[k])
    {
      if k < |savedIds| {
        assert s[k] == savedIds[k];
      } else {
        assert ticks[i].sent == Some(s[k]);
      }
    }
  }

  /** How a refresh task ends. SleepFailed: `update_interval * 3600` is not a
      number (a stored str, list or dict), so the sleep after the first pass
      raises TypeError, which the outer handler catches. */
  datatype TaskExit = GuildNotFound | ChannelInvalid | DatabaseMissing | SendFailed | SleepFailed | Cancelled

  class AutomatedLeaderboard {
    var runningTasks: set<TaskId>

    constructor ()
      ensures runningTasks == {}
    {
      runningTasks := {};
    }

    /** `cog_load`: start a task for every stored configuration that passes the
        checks and is not already running, guild by guild, until a guild whose
        list cannot be iterated ends the loading. Returns the tasks started, in
        order. */
    method CogLoad(dbPresent: bool, guilds: seq<GuildDoc>) returns (started: seq<TaskStart>)
      modifies this
      ensures !dbPresent ==> started == [] && runningTasks == old(runningTasks)
      ensures dbPresent ==> runningTasks == old(runningTasks) + LoadIds(guilds)
      ensures forall k :: 0 <= k < |started| ==> started[k].id !in old(runningTasks)
      ensures forall a, b :: 0 <= a < b < |started| ==> started[a].id != started[b].id
      ensures StartedIds(started) == runningTasks - old(runningTasks)
    {
      started := [];
      if !dbPresent {
        return;
      }
      var i := 0;
      while i < |guilds|
        invariant 0 <= i <= |guilds|
        invariant runningTasks == old(runningTasks) + LoadIds(guilds[..i])
        invariant !AnyAborts(guilds[..i])
        invariant StartedFresh(started, old(runningTasks), runningTasks)
      {
        var guild := guilds[i];
        LoadIdsStep(guilds, i);
        if !Truthy(guild.id) {
          if guild.leaderboards.Some? {
            ConfigIdsFalsyGuild(guild.id, guild.leaderboards.value);
          }
          i := i + 1;
          continue;
        }
        if guild.leaderboards.None? {
          LoadIdsStopsAtAbort(guilds, i);
          return;
        }
        var configs := guild.leaderboards.value;
        var j := 0;
        while j < |configs|
          invariant 0 <= j <= |configs|
          invariant runningTasks == old(runningTasks) + LoadIds(guilds[..i]) + ConfigIds(guild.id, configs[..j])
          invariant StartedFresh(started, old(runningTasks), runningTasks)
        {
          var config := configs[j];
          ConfigIdsStep(guild.id, configs, j);
          var task := ConfigTask(guild.id, config);
          if task.Some? && task.value.id !in runningTasks {
            StartFresh(started, task.value, old(runningTasks), runningTasks);
            runningTasks := runningTasks + {task.value.id};
            started := started + [task.value];
          }
          j := j + 1;
        }
        assert configs[..j] == configs;
        i := i + 1;
      }
      assert guilds[..i] == guilds;
    }

    /** `create_leaderboard`: an interval outside 1..720 hours, a tuple already
        running, or a missing database manager is refused with the registry
        unchanged; otherwise the tuple is registered and its task started. */
    method CreateLeaderboard(guildId: int, channelId: int, leaderboardType: string,
                             server: Option<string>, updateInterval: int, dbPresent: bool)
      returns (r: CreateOutcome)
      modifies this
      ensures var id := (guildId, channelId, PyStr(leaderboardType), PyStr(ServerOrDefault(server)));
        && (r == IntervalOutOfRange <==> !(MinInterval <= updateInterval <= MaxInterval))
        && (r == AlreadyRunning <==> MinInterval <= updateInterval <= MaxInterval && id in old(runningTasks))
        && (r == DatabaseUnavailable <==>
              MinInterval <= updateInterval <= MaxInterval && id !in old(runningTasks) && !dbPresent)
        && (r.Created? ==> r.id == id)
        && runningTasks == (if r.Created? then old(runningTasks) + {id} else old(runningTasks))
    {
      var serverId := ServerOrDefault(server);
      var taskId := (guildId, channelId, PyStr(leaderboardType), PyStr(serverId));
      if !(MinInterval <= updateInterval <= MaxInterval) {
        return IntervalOutOfRange;
      }
      if taskId in runningTasks {
        return AlreadyRunning;
      }
      if !dbPresent {
        return DatabaseUnavailable;
      }
      runningTasks := runningTasks + {taskId};
      r := Created(taskId);
    }

    /** `remove_leaderboard` as intended: a tuple that is not running is
        refused; otherwise its task is cancelled and the tuple discarded, even
        when the database manager is then found missing. */
    method RemoveLeaderboard(guildId: int, channelId: int, leaderboardType: string,
                             server: Option<string>, dbPresent: bool)
      returns (r: RemoveOutcome)
      modifies this
      ensures var id := (guildId, channelId, PyStr(leaderboardType), PyStr(ServerOrDefault(server)));
        && (r == NotRunning <==> id !in old(runningTasks))
        && (r == RemovedWithoutDatabase <==> id in old(runningTasks) && !dbPresent)
        && (r == Removed <==> id in old(runningTasks) && dbPresent)
        && runningTasks == old(runningTasks) - {id}
    {
      var taskId := (guildId, channelId, PyStr(leaderboardType), PyStr(ServerOrDefault(server)));
      if taskId !in runningTasks {
        return NotRunning;
      }
      runningTasks := runningTasks - {taskId};
      if !dbPresent {
        return RemovedWithoutDatabase;
      }
      r := Removed;
    }

    /** `remove_leaderboard` as written: before the discard, it scans the
        pending tasks and reads `__defaults__` from the coroutine of every task
        running the refresh loop. Coroutine objects have no such attribute, so
        as soon as one refresh task is pending the read raises, the broad
        handler answers "Failed to remove leaderboard." and the tuple stays
        registered. */
    method RemoveLeaderboardAsWritten(guildId: int, channelId: int, leaderboardType: string,
                                      server: Option<string>, dbPresent: bool,
                                      refreshTaskPending: bool)
      returns (r: RemoveOutcome)
      modifies this
      ensures var id := (guildId, channelId, PyStr(leaderboardType), PyStr(ServerOrDefault(server)));
        && (r == NotRunning <==> id !in old(runningTasks))
        && (r == RemoveFailed <==> id in old(runningTasks) && refreshTaskPending)
        && runningTasks == (if r == RemoveFailed then old(runningTasks) else old(runningTasks) - {id})
    {
      var taskId := (guildId, channelId, PyStr(leaderboardType), PyStr(ServerOrDefault(server)));
      if taskId !in runningTasks {
        return NotRunning;
      }
      if refreshTaskPending {
        return RemoveFailed;
      }
      runningTasks := runningTasks - {taskId};
      if !dbPresent {
        return RemovedWithoutDatabase;
      }
      r := Removed;
    }

    /** `run_leaderboard_task`, with the outside world's answers as parameters:
        whether the guild is found, whether the channel is a text channel,
        whether the stored message could be fetched, the update interval as
        stored, and one Tick per pass of the refresh loop; the task is
        cancelled in the sleep after the last Tick. Every way out discards the
        task's tuple. Returns how the task ended, the passes it completed, and
        the message ids it stored. */
    method RunLeaderboardTask(id: TaskId, guildFound: bool, channelIsText: bool,
                              initialMessageId: Option<int>, fetchOk: bool, updateInterval: PyValue,
                              ticks: seq<Tick>)
      returns (exit: TaskExit, passes: nat, savedIds: seq<int>)
      modifies this
      ensures runningTasks == old(runningTasks) - {id}
      ensures exit == GuildNotFound <==> !guildFound
      ensures exit == ChannelInvalid <==> guildFound && !channelIsText
      ensures passes <= |ticks|
      ensures forall i :: 0 <= i < passes ==> ticks[i].dbPresent
      ensures exit == Cancelled ==> passes == |ticks| && (IsNumber(updateInterval) || ticks == [])
      ensures exit == DatabaseMissing ==> passes < |ticks| && !ticks[passes].dbPresent
      ensures exit == SendFailed ==>
        && passes < |ticks| && ticks[passes].dbPresent && !ticks[passes].queryFailed
        && ticks[passes].sent.None?
      ensures exit == SleepFailed <==>
        guildFound && channelIsText && !IsNumber(updateInterval) && passes == 1
      ensures !IsNumber(updateInterval) ==> passes <= 1
      ensures (&& guildFound && channelIsText && (IsNumber(updateInterval) || ticks == [])
               && forall i :: 0 <= i < |ticks| ==> ticks[i].dbPresent && ticks[i].sent.Some?)
        ==> exit == Cancelled
      ensures (&& guildFound && channelIsText && IsNumber(updateInterval)
               && forall i :: 0 <= i < |ticks| ==> ticks[i].sent.Some?)
        ==> (exit == DatabaseMissing <==> exists i :: 0 <= i < |ticks| && !ticks[i].dbPresent)
      ensures FromSends(savedIds, ticks)
    {
      passes, savedIds := 0, [];
      if !guildFound {
        runningTasks := runningTasks - {id};
        return GuildNotFound, passes, savedIds;
      }
      if !channelIsText {
        runningTasks := runningTasks - {id};
        return ChannelInvalid, passes, savedIds;
      }
      var message: Option<int> := None;
      if initialMessageId.Some? && initialMessageId.value != 0 && fetchOk {
        message := initialMessageId;
      }
      while passes < |ticks|
        invariant passes <= |ticks|
        invariant runningTasks == old(runningTasks)
        invariant forall i :: 0 <= i < passes ==> ticks[i].dbPresent
        invariant FromSends(savedIds, ticks)
        invariant !IsNumber(updateInterval) ==> passes == 0
      {
        var tick := ticks[passes];
        if !tick.dbPresent {
          runningTasks := runningTasks - {id};
          return DatabaseMissing, passes, savedIds;
        }
        if !tick.queryFailed && (!tick.hasData || tick.embedBuilt) {
          if message.Some? && tick.edit == MessageNotFound {
            message := None;
          }
          if message.None? {
            if tick.sent.None? {
              runningTasks := runningTasks - {id};
              return SendFailed, passes, savedIds;
            }
            message := tick.sent;
            SendSaved(savedIds, ticks, passes);
            savedIds := savedIds + [tick.sent.value];
          }
        }
        passes := passes + 1;
        if !IsNumber(updateInterval) {
          runningTasks := runningTasks - {id};
          return SleepFailed, passes, savedIds;
        }
      }
      runningTasks := runningTasks - {id};
      exit := Cancelled;
    }
  }

  /** The discrepancy in the removal command as written: whenever the tuple
      is registered, its own refresh task is pending, so the removal fails and
      the tuple stays registered; the intended removal discards it. */
  method RemovalFailsWhileTaskPending(guildId: int, channelId: int, leaderboardType: string)
    returns (asWritten: RemoveOutcome, keptAsWritten: bool, intended: RemoveOutcome, keptIntended: bool)
    ensures asWritten == RemoveFailed && keptAsWritten
    ensures intended == Removed && !keptIntended
  {
    var registry := new AutomatedLeaderboard();
    var created := registry.CreateLeaderboard(guildId, channelId, leaderboardType, None, 24, true);
    var id := (guildId, channelId, PyStr(leaderboardType), PyStr(DefaultServer));
    assert created == Created(id);
    var removed := registry.RemoveLeaderboardAsWritten(guildId, channelId, leaderboardType, None, true, true);
    asWritten, keptAsWritten := removed, id in registry.runningTasks;
    var again := new AutomatedLeaderboard();
    var created2 := again.CreateLeaderboard(guildId, channelId, leaderboardType, None, 24, true);
    var removed2 := again.RemoveLeaderboard(guildId, channelId, leaderboardType, None, true);
    intended, keptIntended := removed2, id in again.runningTasks;
  }
}
