/** The kill-event pipeline of the statistics cog (ScalableUnifiedProcessor):
    validation of raw event records, the per-killer flood window, the buffer
    that is drained in slices of twenty, and the per-(guild, player, server)
    counters that each processed event updates. */
module KillEvents {
  import opened PyBase

  /** Buffer occupancy at which an add triggers an immediate drain. */
  const BufferSize: nat := 50
  /** Events taken off the buffer per slice. */
  const BatchSize: nat := 20
  /** Events allowed inside one window before a killer counts as flooding. */
  const FloodThreshold: nat := 5
  /** Width of the flood window, in seconds. */
  const TimeWindow: real := 60.0

  /** A kill event as it arrives: a dict whose values may have any type. */
  type RawEvent = Doc

  // ---------------------------------------------------------------------
  // Validation
  // ---------------------------------------------------------------------

  /** The outcome of validation, one value per rejection branch, in the order
      the checks are made. */
  datatype Verdict =
    | Accepted
    | MissingField
    | GuildIdNotInt
    | NamesNotStrings
    | TimestampNotNumber
    | SuicideFlagNotBool

  /** `kill_event.get(field) is not None` */
  predicate Present(ev: RawEvent, field: string)
  {
    field in ev && ev[field] != PyNone
  }

  /** All seven required fields are present and not None. */
  predicate AllPresent(ev: RawEvent)
  {
    && Present(ev, "guild_id") && Present(ev, "killer") && Present(ev, "victim")
    && Present(ev, "weapon") && Present(ev, "timestamp") && Present(ev, "server_id")
    && Present(ev, "is_suicide")
  }

  function CheckKillEvent(ev: RawEvent): Verdict
  {
    if !AllPresent(ev) then MissingField
    else if !IsInt(ev["guild_id"]) then GuildIdNotInt
    else if !(ev["killer"].PyStr? && ev["victim"].PyStr? && ev["weapon"].PyStr? && ev["server_id"].PyStr?)
    then NamesNotStrings
    else if !IsNumber(ev["timestamp"]) then TimestampNotNumber
    else if !ev["is_suicide"].PyBool? then SuicideFlagNotBool
    else Accepted
  }

  /** `validate_kill_event` */
  predicate ValidateKillEvent(ev: RawEvent)
  {
    CheckKillEvent(ev) == Accepted
  }

  /** A validated kill event with its fields at their checked types. */
  datatype KillEvent = KillEvent(
    guildId: int, killer: string, victim: string, weapon: string,
    timestamp: real, serverId: string, isSuicide: bool)

  /** What the processing code reads out of a validated record. */
  function Decode(ev: RawEvent): (e: KillEvent)
    requires ValidateKillEvent(ev)
    ensures e.guildId == AsInt(ev["guild_id"]) && e.timestamp == AsReal(ev["timestamp"])
    ensures PyStr(e.killer) == ev["killer"] && PyStr(e.victim) == ev["victim"]
    ensures PyStr(e.weapon) == ev["weapon"] && PyStr(e.serverId) == ev["server_id"]
    ensures PyBool(e.isSuicide) == ev["is_suicide"]
  {
    KillEvent(AsInt(ev["guild_id"]), ev["killer"].s, ev["victim"].s, ev["weapon"].s,
              AsReal(ev["timestamp"]), ev["server_id"].s, ev["is_suicide"].b)
  }

  /** The record a well-behaved log watcher sends for a kill event. */
  function Encode(e: KillEvent): RawEvent
  {
    map["guild_id" := PyInt(e.guildId), "killer" := PyStr(e.killer),
        "victim" := PyStr(e.victim), "weapon" := PyStr(e.weapon),
        "timestamp" := PyFloat(e.timestamp), "server_id" := PyStr(e.serverId),
        "is_suicide" := PyBool(e.isSuicide)]
  }

  /** Every well-typed record is accepted and reads back as the event it encodes. */
  lemma EncodeDecode(e: KillEvent)
    ensures ValidateKillEvent(Encode(e)) && Decode(Encode(e)) == e
  {
  }

  /** Validation looks only at the seven required fields: any other key may be
      added or changed without affecting the verdict or the decoded event. */
  lemma ValidationIgnoresOtherKeys(ev: RawEvent, key: string, v: PyValue)
    requires key !in {"guild_id", "killer", "victim", "weapon", "timestamp", "server_id", "is_suicide"}
    ensures CheckKillEvent(ev[key := v]) == CheckKillEvent(ev)
    ensures ValidateKillEvent(ev) ==> Decode(ev[key := v]) == Decode(ev)
  {
  }

  /** A required field that is None or missing rejects the event as incomplete. */
  lemma NoneFieldRejected(ev: RawEvent, field: string)
    requires field in {"guild_id", "killer", "victim", "weapon", "timestamp", "server_id", "is_suicide"}
    ensures CheckKillEvent(ev[field := PyNone]) == MissingField
    ensures CheckKillEvent(ev - {field}) == MissingField
  {
  }

  /** The type checks are Python's: a bool guild id and empty names pass, a
      float guild id does not, an int timestamp passes, an int suicide flag
      does not. */
  lemma TypeChecksArePythons(e: KillEvent)
    ensures ValidateKillEvent(Encode(e)["guild_id" := PyBool(true)])
    ensures Decode(Encode(e)["guild_id" := PyBool(true)]).guildId == 1
    ensures ValidateKillEvent(Encode(e)["killer" := PyStr("")]["weapon" := PyStr("")])
    ensures CheckKillEvent(Encode(e)["guild_id" := PyFloat(e.guildId as real)]) == GuildIdNotInt
    ensures ValidateKillEvent(Encode(e)["timestamp" := PyInt(7)])
    ensures CheckKillEvent(Encode(e)["is_suicide" := PyInt(1)]) == SuicideFlagNotBool
  {
    BoolGuildIdPasses(e);
    EmptyNamesPass(e);
    FloatGuildIdFails(e);
    IntTimestampPasses(e);
    IntSuicideFlagFails(e);
  }

  lemma BoolGuildIdPasses(e: KillEvent)
    ensures ValidateKillEvent(Encode(e)["guild_id" := PyBool(true)])
    ensures Decode(Encode(e)["guild_id" := PyBool(true)]).guildId == 1
  {
  }

  lemma EmptyNamesPass(e: KillEvent)
    ensures ValidateKillEvent(Encode(e)["killer" := PyStr("")]["weapon" := PyStr("")])
  {
  }

  lemma FloatGuildIdFails(e: KillEvent)
    ensures CheckKillEvent(Encode(e)["guild_id" := PyFloat(e.guildId as real)]) == GuildIdNotInt
  {
  }

  lemma IntTimestampPasses(e: KillEvent)
    ensures ValidateKillEvent(Encode(e)["timestamp" := PyInt(7)])
  {
  }

  lemma IntSuicideFlagFails(e: KillEvent)
    ensures CheckKillEvent(Encode(e)["is_suicide" := PyInt(1)]) == SuicideFlagNotBool
  {
  }

  /** An event is accepted exactly when its seven fields are present and not
      None, the guild id is an int or a bool, the four names are strs, the
      timestamp is an int, a bool or a float, and the suicide flag is a bool. */
  lemma ValidateKillEventSpec(ev: RawEvent)
    ensures ValidateKillEvent(ev) <==>
      && (forall f :: f in ["guild_id", "killer", "victim", "weapon", "timestamp", "server_id", "is_suicide"] ==>
            f in ev && !ev[f].PyNone?)
      && (ev["guild_id"].PyInt? || ev["guild_id"].PyBool?)
      && ev["killer"].PyStr? && ev["victim"].PyStr? && ev["weapon"].PyStr? && ev["server_id"].PyStr?
      && (ev["timestamp"].PyInt? || ev["timestamp"].PyBool? || ev["timestamp"].PyFloat?)
      && ev["is_suicide"].PyBool?
  {
  }

  // ---------------------------------------------------------------------
  // Flood window
  // ---------------------------------------------------------------------

  /** The timestamps of a window that are still within the window at `now`. */
  function Prune(ts: seq<real>, now: real): (r: seq<real>)
    ensures |r| <= |ts|
    ensures forall t :: t in r <==> t in ts && now - t <= TimeWindow
  {
    if ts == [] then []
    else (if now - ts[0] <= TimeWindow then [ts[0]] else []) + Prune(ts[1..], now)
  }

  /** Pruning keeps the surviving timestamps in their original order: it
      distributes over concatenation. */
  lemma {:induction false} PruneConcat(a: seq<real>, b: seq<real>, now: real)
    ensures Prune(a + b, now) == Prune(a, now) + Prune(b, now)
  {
    if a == [] {
      assert a + b == b;
    } else {
      var head := if now - a[0] <= TimeWindow then [a[0]] else [];
      assert (a + b)[0] == a[0];
      assert (a + b)[1..] == a[1..] + b;
      assert Prune(a + b, now) == head + Prune(a[1..] + b, now);
      PruneConcat(a[1..], b, now);
      assert Prune(a, now) == head + Prune(a[1..], now);
      ConcatAssoc(head, Prune(a[1..], now), Prune(b, now));
    }
  }

  /** A window whose timestamps are all recent is left as it is. */
  lemma {:induction false} PruneKeepsRecent(ts: seq<real>, now: real)
    requires forall i :: 0 <= i < |ts| ==> now - ts[i] <= TimeWindow
    ensures Prune(ts, now) == ts
  {
    if ts != [] {
      PruneKeepsRecent(ts[1..], now);
    }
  }

  /** The recorded window of a killer; a killer never seen has an empty one. */
  function Window(windows: map<string, seq<real>>, killer: string): seq<real>
  {
    if killer in windows then windows[killer] else []
  }

  /** One `is_flood` call on a window at time `now`: the new window and the verdict. */
  function FloodStep(window: seq<real>, now: real): (seq<real>, bool)
  {
    var w := Prune(window, now) + [now];
    (w, |w| > FloodThreshold)
  }

  /** The verdicts of consecutive `is_flood` calls for one killer at the given times. */
  function FloodRun(window: seq<real>, nows: seq<real>): (flags: seq<bool>)
    ensures |flags| == |nows|
    decreases |nows|
  {
    if nows == [] then []
    else
      var step := FloodStep(window, nows[0]);
      [step.1] + FloodRun(step.0, nows[1..])
  }

  function Repeat<T>(x: T, n: nat): (r: seq<T>)
    ensures |r| == n && forall i :: 0 <= i < n ==> r[i] == x
  {
    seq(n, _ => x)
  }

  /** A burst of calls at one instant on a window holding `k` earlier calls at
      that instant: the call that brings the window above the threshold is the
      first to be flagged, and every later one is flagged too. */
  lemma {:induction false} BurstVerdicts(k: nat, n: nat, now: real)
    ensures FloodRun(Repeat(now, k), Repeat(now, n)) == seq(n, i => k + i + 1 > FloodThreshold)
    decreases n
  {
    if n > 0 {
      PruneKeepsRecent(Repeat(now, k), now);
      assert Repeat(now, k) + [now] == Repeat(now, k + 1);
      assert Repeat(now, n)[1..] == Repeat(now, n - 1);
      BurstVerdicts(k + 1, n - 1, now);
    }
  }

  /** From an empty window, five calls at one instant pass and the sixth is flagged. */
  lemma SixthCallFlagged(now: real)
    ensures FloodRun([], Repeat(now, 6)) == [false, false, false, false, false, true]
  {
    BurstVerdicts(0, 6, now);
  }

  /** A window whose timestamps are all stale is emptied. */
  lemma {:induction false} PruneDropsStale(ts: seq<real>, now: real)
    requires forall i :: 0 <= i < |ts| ==> now - ts[i] > TimeWindow
    ensures Prune(ts, now) == []
  {
    if ts != [] {
      PruneDropsStale(ts[1..], now);
    }
  }

  /** Once every recorded timestamp is more than a window old, the next call
      starts a fresh window and is not flagged. */
  lemma QuietAfterWindow(window: seq<real>, now: real)
    requires forall i :: 0 <= i < |window| ==> now - window[i] > TimeWindow
    ensures FloodStep(window, now) == ([now], false)
  {
    PruneDropsStale(window, now);
    assert Prune(window, now) + [now] == [now];
  }

  /** After a call, the window holds only timestamps within the window of
      `now`, ends with `now`, and the verdict is its size against the threshold. */
  lemma FloodStepWindow(window: seq<real>, now: real)
    ensures var (w, flooding) := FloodStep(window, now);
      && w[|w| - 1] == now
      && (forall t :: t in w ==> now - t <= TimeWindow)
      && (flooding <==> |w| > FloodThreshold)
      && |w| <= |window| + 1
  {
  }

  // ---------------------------------------------------------------------
  // Counters
  // ---------------------------------------------------------------------

  /** (guild_id, player, server_id) */
  type StatKey = (int, string, string)

  datatype Stats = Stats(kills: int, deaths: int, suicides: int)

  /** The record of a player never seen before. */
  const Zero := Stats(0, 0, 0)

  /** `get_player_stats`, with a missing record read as all zeros. */
  function Lookup(store: map<StatKey, Stats>, key: StatKey): Stats
  {
    if key in store then store[key] else Zero
  }

  function KillerKey(e: KillEvent): StatKey { (e.guildId, e.killer, e.serverId) }

  function VictimKey(e: KillEvent): StatKey { (e.guildId, e.victim, e.serverId) }

  /** The two reads, then the one or two writes, of one processed event. Both
      reads happen before either write. */
  function ApplyKill(store: map<StatKey, Stats>, e: KillEvent): map<StatKey, Stats>
  {
    var k := Lookup(store, KillerKey(e));
    var v := Lookup(store, VictimKey(e));
    if e.isSuicide then
      store[KillerKey(e) := Stats(k.kills, k.deaths, k.suicides + 1)]
    else
      store[KillerKey(e) := Stats(k.kills + 1, k.deaths, k.suicides)]
           [VictimKey(e) := Stats(v.kills, v.deaths + 1, v.suicides)]
  }

  /** What one processed event does to the counters: a suicide adds one to the
      killer's suicides only; a kill adds one to the killer's kills and one to
      the victim's deaths; a non-suicide event whose killer is its own victim
      ends with one more death and the same kills, because the victim's write
      is made from the record read before the killer's write. No other record
      changes. */
  lemma ApplyKillEffect(store: map<StatKey, Stats>, e: KillEvent)
    ensures var s := ApplyKill(store, e);
      var k := Lookup(store, KillerKey(e));
      var v := Lookup(store, VictimKey(e));
      && (forall key :: key != KillerKey(e) && key != VictimKey(e) ==>
            (key in s <==> key in store) && Lookup(s, key) == Lookup(store, key))
      && (e.isSuicide ==>
            Lookup(s, KillerKey(e)) == Stats(k.kills, k.deaths, k.suicides + 1)
            && (VictimKey(e) != KillerKey(e) ==> (VictimKey(e) in s <==> VictimKey(e) in store)
                                                 && Lookup(s, VictimKey(e)) == v))
      && (!e.isSuicide && e.victim != e.killer ==>
            Lookup(s, KillerKey(e)) == Stats(k.kills + 1, k.deaths, k.suicides)
            && Lookup(s, VictimKey(e)) == Stats(v.kills, v.deaths + 1, v.suicides))
      && (!e.isSuicide && e.victim == e.killer ==>
            Lookup(s, KillerKey(e)) == Stats(k.kills, k.deaths + 1, k.suicides))
  {
  }

  /** `a` is no larger than `b` in any counter. */
  predicate StatsLe(a: Stats, b: Stats)
  {
    a.kills <= b.kills && a.deaths <= b.deaths && a.suicides <= b.suicides
  }

  /** Counters only grow, and existing records are never deleted. */
  predicate Grows(before: map<StatKey, Stats>, after: map<StatKey, Stats>)
  {
    forall key :: key in before ==> key in after && StatsLe(before[key], after[key])
  }

  lemma ApplyKillGrows(store: map<StatKey, Stats>, e: KillEvent)
    ensures Grows(store, ApplyKill(store, e))
  {
  }

  // ---------------------------------------------------------------------
  // Processing events
  // ---------------------------------------------------------------------

  /** The state an event's processing reads and writes: the flood windows of
      the processor, and the statistics collection and event log of the
      database. */
  datatype Aggregates = Aggregates(
    windows: map<string, seq<real>>, store: map<StatKey, Stats>, log: seq<RawEvent>)

  /** `process_single_kill_event`: the premium gate, then the flood gate, then
      the log entry and the counter updates. `premium` answers the premium
      lookup, which fails closed to false. */
  function ProcessEvent(a: Aggregates, raw: RawEvent, premium: int -> bool, now: real): Aggregates
    requires ValidateKillEvent(raw)
  {
    var e := Decode(raw);
    if !premium(e.guildId) then a
    else
      var step := FloodStep(Window(a.windows, e.killer), now);
      var a1 := a.(windows := a.windows[e.killer := step.0]);
      if step.1 then a1 else a1.(store := ApplyKill(a.store, e), log := a.log + [raw])
  }

  /** The gates of one event: a non-premium guild's event touches nothing, not
      even the flood window; a flooding killer's event moves its window but
      writes neither the log nor the counters; any other premium event is
      logged and counted. */
  lemma ProcessEventGates(a: Aggregates, raw: RawEvent, premium: int -> bool, now: real)
    requires ValidateKillEvent(raw)
    ensures var e := Decode(raw);
      var r := ProcessEvent(a, raw, premium, now);
      var step := FloodStep(Window(a.windows, e.killer), now);
      && (!premium(e.guildId) ==> r == a)
      && (premium(e.guildId) ==> r.windows == a.windows[e.killer := step.0])
      && (premium(e.guildId) && step.1 ==> r.store == a.store && r.log == a.log)
      && (premium(e.guildId) && !step.1 ==> r.store == ApplyKill(a.store, e) && r.log == a.log + [raw])
  {
  }

  predicate AllValid(evs: seq<RawEvent>)
  {
    forall i :: 0 <= i < |evs| ==> ValidateKillEvent(evs[i])
  }

  lemma AllValidSlice(evs: seq<RawEvent>, i: nat, j: nat)
    requires AllValid(evs) && i <= j <= |evs|
    ensures AllValid(evs[i..j])
  {
    forall k | 0 <= k < j - i ensures ValidateKillEvent(evs[i..j][k]) {
      assert evs[i..j][k] == evs[i + k];
    }
  }

  /** The events processed one after the other, in order. */
  function ProcessAll(a: Aggregates, evs: seq<RawEvent>, premium: int -> bool, now: real): Aggregates
    requires AllValid(evs)
  {
    if evs == [] then a
    else ProcessEvent(ProcessAll(a, evs[..|evs| - 1], premium, now), evs[|evs| - 1], premium, now)
  }

  /** Processing two runs of events is processing their concatenation. */
  lemma {:induction false} ProcessAllConcat(a: Aggregates, xs: seq<RawEvent>, ys: seq<RawEvent>, premium: int -> bool, now: real)
    requires AllValid(xs) && AllValid(ys)
    ensures AllValid(xs + ys)
    ensures ProcessAll(a, xs + ys, premium, now) == ProcessAll(ProcessAll(a, xs, premium, now), ys, premium, now)
    decreases |ys|
  {
    assert AllValid(xs + ys) by {
      forall i | 0 <= i < |xs + ys| ensures ValidateKillEvent((xs + ys)[i]) {
        if i < |xs| { assert (xs + ys)[i] == xs[i]; } else { assert (xs + ys)[i] == ys[i - |xs|]; }
      }
    }
    if ys == [] {
      assert xs + ys == xs;
    } else {
      var ys' := ys[..|ys| - 1];
      assert (xs + ys)[..|xs + ys| - 1] == xs + ys';
      ProcessAllConcat(a, xs, ys', premium, now);
    }
  }

  /** A drain never lowers a counter, never deletes a record, and only appends
      to the event log. */
  lemma {:induction false} ProcessAllGrows(a: Aggregates, evs: seq<RawEvent>, premium: int -> bool, now: real)
    requires AllValid(evs)
    ensures Grows(a.store, ProcessAll(a, evs, premium, now).store)
    ensures a.log <= ProcessAll(a, evs, premium, now).log
  {
    if evs != [] {
      var evs' := evs[..|evs| - 1];
      ProcessAllGrows(a, evs', premium, now);
      var mid := ProcessAll(a, evs', premium, now);
      ApplyKillGrows(mid.store, Decode(evs[|evs| - 1]));
    }
  }

  /** Events of guilds without premium leave every window, counter and log
      entry as it was. */
  lemma {:induction false} NonPremiumDrainIsNoop(a: Aggregates, evs: seq<RawEvent>, premium: int -> bool, now: real)
    requires AllValid(evs)
    requires forall i :: 0 <= i < |evs| ==> !premium(Decode(evs[i]).guildId)
    ensures ProcessAll(a, evs, premium, now) == a
  {
    if evs != [] {
      NonPremiumDrainIsNoop(a, evs[..|evs| - 1], premium, now);
    }
  }

  // ---------------------------------------------------------------------
  // Slicing the buffer
  // ---------------------------------------------------------------------

  /** The slices a drain takes off the front of the buffer, in order. */
  function Slices<T>(s: seq<T>): seq<seq<T>>
    decreases |s|
  {
    if s == [] then []
    else if |s| <= BatchSize then [s]
    else [s[..BatchSize]] + Slices(s[BatchSize..])
  }

  /** The first slice of a non-empty buffer and what is left after it. */
  lemma SlicesUnfold<T>(s: seq<T>, n: nat)
    requires s != [] && n == (if |s| < BatchSize then |s| else BatchSize)
    ensures Slices(s) == [s[..n]] + Slices(s[n..])
  {
    if |s| <= BatchSize {
      assert s[n..] == [];
      assert s[..n] == s;
    }
  }

  lemma ConcatAssoc<T>(a: seq<T>, b: seq<T>, c: seq<T>)
    ensures (a + b) + c == a + (b + c)
  {
  }

  function Flatten<T>(ss: seq<seq<T>>): seq<T>
  {
    if ss == [] then [] else ss[0] + Flatten(ss[1..])
  }

  lemma {:induction false} FlattenAppend<T>(ss: seq<seq<T>>, s: seq<T>)
    ensures Flatten(ss + [s]) == Flatten(ss) + s
  {
    if ss != [] {
      assert (ss + [s])[1..] == ss[1..] + [s];
      FlattenAppend(ss[1..], s);
    }
  }

  /** The slices are the consecutive runs of twenty (the last one shorter)
      starting at offsets 0, 20, 40, ...; they are non-empty and together give
      back the whole buffer. */
  lemma SlicesSpec<T>(s: seq<T>)
    ensures Flatten(Slices(s)) == s
    ensures |Slices(s)| == (|s| + BatchSize - 1) / BatchSize
    ensures forall i :: 0 <= i < |Slices(s)| ==>
      && BatchSize * i < |s|
      && Slices(s)[i] == s[BatchSize * i .. if BatchSize * i + BatchSize <= |s| then BatchSize * i + BatchSize else |s|]
  {
    SlicesFlatten(s);
    SlicesCount(s);
    forall i | 0 <= i < |Slices(s)|
      ensures BatchSize * i < |s|
      ensures Slices(s)[i] == s[BatchSize * i .. if BatchSize * i + BatchSize <= |s| then BatchSize * i + BatchSize else |s|]
    {
      SlicesAt(s, i);
    }
  }

  lemma {:induction false} SlicesFlatten<T>(s: seq<T>)
    ensures Flatten(Slices(s)) == s
    decreases |s|
  {
    if |s| > BatchSize {
      var rest := s[BatchSize..];
      SlicesFlatten(rest);
      assert Slices(s)[1..] == Slices(rest);
      assert s[..BatchSize] + rest == s;
    } else if s != [] {
      assert Slices(s) == [s];
      assert Slices(s)[1..] == [];
    }
  }

  lemma {:induction false} SlicesCount<T>(s: seq<T>)
    ensures |Slices(s)| == (|s| + BatchSize - 1) / BatchSize
    decreases |s|
  {
    if |s| > BatchSize {
      SlicesCount(s[BatchSize..]);
    }
  }

  lemma {:induction false} SlicesAt<T>(s: seq<T>, i: int)
    requires 0 <= i < |Slices(s)|
    ensures BatchSize * i < |s|
    ensures Slices(s)[i] == s[BatchSize * i .. if BatchSize * i + BatchSize <= |s| then BatchSize * i + BatchSize else |s|]
    decreases |s|
  {
    if |s| > BatchSize && i > 0 {
      var rest := s[BatchSize..];
      SlicesAt(rest, i - 1);
      assert Slices(s)[i] == Slices(rest)[i - 1];
      var j := BatchSize * (i - 1);
      var e := if j + BatchSize <= |rest| then j + BatchSize else |rest|;
      assert rest[j..e] == s[BatchSize * i .. BatchSize + e];
    }
  }

  // ---------------------------------------------------------------------
  // The processor
  // ---------------------------------------------------------------------

  /** ScalableUnifiedProcessor: its flags, its buffer and its flood windows,
      together with the two database collections its processing writes. */
  class UnifiedProcessor {
    var processorEnabled: bool
    var processorRunning: bool
    var killEventBuffer: seq<RawEvent>
    var recentKillTimes: map<string, seq<real>>
    /** Per-player counters held by the database. */
    var store: map<StatKey, Stats>
    /** Raw events recorded by the database. */
    var eventLog: seq<RawEvent>

    /** Only validated events ever enter the buffer. */
    ghost predicate Valid()
      reads this
    {
      AllValid(killEventBuffer)
    }

    function Snapshot(): Aggregates
      reads this
    {
      Aggregates(recentKillTimes, store, eventLog)
    }

    constructor (initialStore: map<StatKey, Stats>, initialLog: seq<RawEvent>)
      ensures Valid()
      ensures processorEnabled && !processorRunning && killEventBuffer == []
      ensures Snapshot() == Aggregates(map[], initialStore, initialLog)
    {
      processorEnabled := true;
      processorRunning := false;
      killEventBuffer := [];
      recentKillTimes := map[];
      store := initialStore;
      eventLog := initialLog;
    }

    /** `is_flood`: prune the killer's window to the last sixty seconds, record
        this call, and report whether the window now holds more than five. */
    method IsFlood(killer: string, now: real) returns (flooding: bool)
      modifies this`recentKillTimes
      ensures recentKillTimes == old(recentKillTimes)[killer := FloodStep(Window(old(recentKillTimes), killer), now).0]
      ensures flooding == FloodStep(Window(old(recentKillTimes), killer), now).1
    {
      if killer !in recentKillTimes {
        recentKillTimes := recentKillTimes[killer := []];
      }
      recentKillTimes := recentKillTimes[killer := Prune(recentKillTimes[killer], now)];
      recentKillTimes := recentKillTimes[killer := recentKillTimes[killer] + [now]];
      flooding := |recentKillTimes[killer]| > FloodThreshold;
    }

    /** `process_single_kill_event` */
    method ProcessSingleKillEvent(raw: RawEvent, premium: int -> bool, now: real)
      requires ValidateKillEvent(raw)
      modifies this`recentKillTimes, this`store, this`eventLog
      ensures Snapshot() == ProcessEvent(old(Snapshot()), raw, premium, now)
    {
      var e := Decode(raw);
      if !premium(e.guildId) {
        return;
      }
      var flooding := IsFlood(e.killer, now);
      if flooding {
        return;
      }
      eventLog := eventLog + [raw];
      var killerStats := Lookup(store, KillerKey(e));
      var victimStats := Lookup(store, VictimKey(e));
      if e.isSuicide {
        store := store[KillerKey(e) := Stats(killerStats.kills, killerStats.deaths, killerStats.suicides + 1)];
      } else {
        store := store[KillerKey(e) := Stats(killerStats.kills + 1, killerStats.deaths, killerStats.suicides)];
        store := store[VictimKey(e) := Stats(victimStats.kills, victimStats.deaths + 1, victimStats.suicides)];
      }
    }

    /** `process_kill_events`: when enabled, ready and with a database, take
        the buffer off in slices of twenty and process each slice's events in
        order; otherwise leave everything as it is. Returns the slices. */
    method ProcessKillEvents(ready: bool, dbPresent: bool, premium: int -> bool, now: real)
      returns (batches: seq<seq<RawEvent>>)
      requires Valid()
      modifies this`killEventBuffer, this`recentKillTimes, this`store, this`eventLog
      ensures Valid()
      ensures processorEnabled && ready && dbPresent ==>
        && killEventBuffer == []
        && batches == Slices(old(killEventBuffer))
        && Snapshot() == ProcessAll(old(Snapshot()), old(killEventBuffer), premium, now)
      ensures !(processorEnabled && ready && dbPresent) ==>
        && killEventBuffer == old(killEventBuffer)
        && batches == []
        && Snapshot() == old(Snapshot())
    {
      batches := [];
      if !processorEnabled {
        return;
      }
      if !ready || !dbPresent {
        return;
      }
      if killEventBuffer == [] {
        return;
      }
      batches := Drain(premium, now);
    }

    /** The loop of a drain: slices of at most twenty come off the front of
        the buffer until it is empty, each processed before the next is taken. */
    method Drain(premium: int -> bool, now: real) returns (batches: seq<seq<RawEvent>>)
      requires Valid()
      modifies this`killEventBuffer, this`recentKillTimes, this`store, this`eventLog
      ensures Valid() && killEventBuffer == []
      ensures batches == Slices(old(killEventBuffer))
      ensures Snapshot() == ProcessAll(old(Snapshot()), old(killEventBuffer), premium, now)
    {
      batches := [];
      ghost var all := killEventBuffer;
      ghost var start := Snapshot();
      while killEventBuffer != []
        invariant Valid()
        invariant Flatten(batches) + killEventBuffer == all
        invariant batches + Slices(killEventBuffer) == Slices(all)
        invariant AllValid(Flatten(batches))
        invariant Snapshot() == ProcessAll(start, Flatten(batches), premium, now)
        decreases |killEventBuffer|
      {
        var n := if |killEventBuffer| < BatchSize then |killEventBuffer| else BatchSize;
        ghost var current := killEventBuffer;
        ghost var done := Flatten(batches);
        SlicesUnfold(current, n);
        var batch := killEventBuffer[..n];
        killEventBuffer := killEventBuffer[n..];
        assert batch + killEventBuffer == current;
        AllValidSlice(current, 0, n);
        AllValidSlice(current, n, |current|);
        ProcessBatch(batch, premium, now);
        ProcessAllConcat(start, done, batch, premium, now);
        FlattenAppend(batches, batch);
        ghost var before := batches;
        batches := batches + [batch];
        ConcatAssoc(done, batch, killEventBuffer);
        ConcatAssoc(before, [batch], Slices(killEventBuffer));
      }
      assert Flatten(batches) == all;
    }

    /** One slice of a drain: its events processed one after the other, in order. */
    method ProcessBatch(batch: seq<RawEvent>, premium: int -> bool, now: real)
      requires AllValid(batch)
      modifies this`recentKillTimes, this`store, this`eventLog
      ensures Snapshot() == ProcessAll(old(Snapshot()), batch, premium, now)
    {
      ghost var start := Snapshot();
      for j := 0 to |batch|
        invariant Snapshot() == ProcessAll(start, batch[..j], premium, now)
      {
        assert batch[..j + 1][..j] == batch[..j];
        ProcessSingleKillEvent(batch[j], premium, now);
      }
      assert batch[..|batch|] == batch;
    }

    /** `add_kill_event`: a disabled processor or an invalid event changes
        nothing; otherwise the event is appended, and once the buffer holds
        fifty or more a drain runs at once. */
    method AddKillEvent(raw: RawEvent, ready: bool, dbPresent: bool, premium: int -> bool, now: real)
      requires Valid()
      modifies this`killEventBuffer, this`recentKillTimes, this`store, this`eventLog
      ensures Valid()
      ensures !processorEnabled || !ValidateKillEvent(raw) ==>
        killEventBuffer == old(killEventBuffer) && Snapshot() == old(Snapshot())
      ensures processorEnabled && ValidateKillEvent(raw) ==>
        var full := old(killEventBuffer) + [raw];
        AllValid(full) &&
        if |full| >= BufferSize && ready && dbPresent then
          killEventBuffer == [] && Snapshot() == ProcessAll(old(Snapshot()), full, premium, now)
        else
          killEventBuffer == full && Snapshot() == old(Snapshot())
    {
      if !processorEnabled {
        return;
      }
      if !ValidateKillEvent(raw) {
        return;
      }
      killEventBuffer := killEventBuffer + [raw];
      if |killEventBuffer| >= BufferSize {
        var _ := ProcessKillEvents(ready, dbPresent, premium, now);
      }
    }

    /** `toggle_processor`: flips the flag and reports the new status. */
    method ToggleProcessor() returns (status: string)
      modifies this`processorEnabled
      ensures processorEnabled == !old(processorEnabled)
      ensures status == if processorEnabled then "enabled" else "disabled"
    {
      processorEnabled := !processorEnabled;
      status := if processorEnabled then "enabled" else "disabled";
    }

    /** `flush_buffer`: runs a drain and reports the number of events the
        buffer held before it, whether or not the drain took them. */
    method FlushBuffer(ready: bool, dbPresent: bool, premium: int -> bool, now: real) returns (reported: nat)
      requires Valid()
      modifies this`killEventBuffer, this`recentKillTimes, this`store, this`eventLog
      ensures Valid()
      ensures reported == |old(killEventBuffer)|
      ensures processorEnabled && ready && dbPresent ==>
        killEventBuffer == [] && Snapshot() == ProcessAll(old(Snapshot()), old(killEventBuffer), premium, now)
      ensures !(processorEnabled && ready && dbPresent) ==>
        killEventBuffer == old(killEventBuffer) && Snapshot() == old(Snapshot())
    {
      reported := |killEventBuffer|;
      var _ := ProcessKillEvents(ready, dbPresent, premium, now);
    }

    /** `on_ready`: the first call starts the drain task, which runs once with
        the bot ready; later calls do nothing. */
    method OnReady(dbPresent: bool, premium: int -> bool, now: real)
      requires Valid()
      modifies this`processorRunning, this`killEventBuffer, this`recentKillTimes, this`store, this`eventLog
      ensures Valid() && processorRunning
      ensures old(processorRunning) ==>
        killEventBuffer == old(killEventBuffer) && Snapshot() == old(Snapshot())
      ensures !old(processorRunning) && processorEnabled && dbPresent ==>
        killEventBuffer == [] && Snapshot() == ProcessAll(old(Snapshot()), old(killEventBuffer), premium, now)
      ensures !old(processorRunning) && !(processorEnabled && dbPresent) ==>
        killEventBuffer == old(killEventBuffer) && Snapshot() == old(Snapshot())
    {
      if !processorRunning {
        var _ := ProcessKillEvents(true, dbPresent, premium, now);
        processorRunning := true;
      }
    }
  }
}
