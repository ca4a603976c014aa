// The delayed-attack scheduler: once per simulation tick it expands each
// equipment activation whose time window has been reached into `count`
// timed sub-attacks, each with its own start time, start/end flag, sound
// and share of the activation heat, and it keeps per-part usage counters
// for parts owned by the player's faction.

module EquipmentActions {

  datatype Option<T> = None | Some(value: T)

  /** The faction whose parts have their usage counted. */
  const PlayerFaction: string := "Phantoms"

  /** The key, in both the float and the string custom data of a subsystem,
      that biases the start of the sub-attacks. */
  const ActionStartTimeKey: string := "action_start_time"

  /** Author-supplied custom data of a subsystem; either table may be null. */
  datatype CustomData = CustomData(floats: Option<map<string, real>>, strings: Option<map<string, string>>)

  /** The activation sounds; each one may be null. */
  datatype ActivationAudio = ActivationAudio(
    onActivationFirst: Option<string>,
    onActivationMid: Option<string>,
    onActivationLast: Option<string>)

  datatype ActivationProcessed = ActivationProcessed(audio: Option<ActivationAudio>)

  /** The data linked to a subsystem entity. */
  datatype SubsystemData = SubsystemData(
    activationProcessed: Option<ActivationProcessed>,
    customProcessed: Option<CustomData>)

  /** An equipment part entity with the cached stats the scheduler reads:
      `actCount` is the `act_count` stat already rounded to an integer,
      `actHeat` the `act_heat` stat. */
  datatype Part = Part(primaryActivationSubsystem: Option<int>, actCount: int, actHeat: real)

  /** A pending equipment action: the activation of part `equipmentId` over
      the window that opens at `startTime` and lasts `duration`. */
  datatype EquipmentAction = EquipmentAction(
    id: int,
    startTime: real,
    duration: real,
    equipmentId: int,
    actionOwner: Option<int>,
    completed: bool)

  /** The usage counters of a part. */
  datatype PartUsage = PartUsage(turns: int, activations: int)

  /** One scheduled sub-attack of an equipment action. */
  datatype SubAttack = SubAttack(
    startTime: real,
    scheduledAttack: int,
    subActionIndex: int,
    scheduledAttackStart: bool,
    scheduledAttackEnd: bool,
    activationSound: Option<string>,
    changeHeat: real)

  /** What the scheduler looks up in the rest of the game: the part and
      subsystem entities by id, the actions the data helper calls valid, the
      faction of the persistent entity linked to each combat unit (absent
      when there is no such entity or it has no faction) and the targeted
      action buffer of the animation settings. */
  datatype Host = Host(
    parts: map<int, Part>,
    subsystems: map<int, SubsystemData>,
    validActions: set<int>,
    factions: map<int, string>,
    targetedActionBuffer: real)

  /** The time window of an action holds `time`: it is closed at its start
      and open at its end. */
  predicate ContainsTime(time: real, startTime: real, duration: real)
  {
    startTime <= time < startTime + duration
  }

  function Max(a: real, b: real): real
  {
    if a >= b then a else b
  }

  // ---------------------------------------------------------------------
  // Start-time policies read from the custom data
  // ---------------------------------------------------------------------

  /** The configured fraction of the usable window to wait before the
      first sub-attack; anything missing or outside [0, 1] falls back to 0. */
  function CustomActionStartTime(custom: CustomData): (pct: real)
    ensures 0.0 <= pct <= 1.0
    ensures pct != 0.0 ==>
      custom.floats.Some? && ActionStartTimeKey in custom.floats.value &&
      pct == custom.floats.value[ActionStartTimeKey]
    ensures (custom.floats.Some? && ActionStartTimeKey in custom.floats.value &&
             0.0 <= custom.floats.value[ActionStartTimeKey] <= 1.0) ==>
      pct == custom.floats.value[ActionStartTimeKey]
  {
    if custom.floats.None? then 0.0
    else if ActionStartTimeKey !in custom.floats.value then 0.0
    else
      var pct := custom.floats.value[ActionStartTimeKey];
      if pct > 1.0 then 0.0
      else if pct < 0.0 then 0.0
      else pct
  }

  /** The start-time keyword of the custom data, if there is one. */
  function StartKeyword(custom: Option<CustomData>): Option<string>
  {
    if custom.None? || custom.value.strings.None? then None
    else if ActionStartTimeKey !in custom.value.strings.value then None
    else Some(custom.value.strings.value[ActionStartTimeKey])
  }

  /** The start of a single-shot action, moved along its window by the
      configured keyword. */
  function SingleActionStart(custom: Option<CustomData>, spacing: real, actionStartTime: real): (r: real)
    ensures spacing >= 0.0 ==> actionStartTime <= r <= actionStartTime + spacing
    ensures StartKeyword(custom) == Some("end") ==> r == actionStartTime + spacing
    ensures StartKeyword(custom) == Some("middle") ==> r == actionStartTime + spacing / 2.0
    ensures StartKeyword(custom) == Some("percentage") ==>
      r == actionStartTime + spacing * CustomActionStartTime(custom.value)
    ensures StartKeyword(custom) !in {Some("end"), Some("middle"), Some("percentage")} ==>
      r == actionStartTime
  {
    if custom.None? then actionStartTime
    else if custom.value.strings.None? then actionStartTime
    else if ActionStartTimeKey !in custom.value.strings.value then actionStartTime
    else
      var start := custom.value.strings.value[ActionStartTimeKey];
      if start == "end" then actionStartTime + spacing
      else if start == "middle" then actionStartTime + spacing / 2.0
      else if start == "percentage" then
        var pct := CustomActionStartTime(custom.value);
        assert spacing >= 0.0 ==> spacing * pct <= spacing * 1.0;
        actionStartTime + spacing * pct
      else actionStartTime
  }

  // ---------------------------------------------------------------------
  // The timeline and the sub-attacks of one activation
  // ---------------------------------------------------------------------

  /** When the first sub-attack starts and how far apart they are. */
  datatype Timing = Timing(actionStartTime: real, spacing: real)

  /** The timeline of `count` sub-attacks in the window of an action, with
      the custom data of its activation subsystem. */
  function ActionTiming(startTime: real, duration: real, buffer: real, count: int, custom: Option<CustomData>): Timing
    requires count >= 1
  {
    var actionStartTime := startTime + buffer;
    var equipmentDuration := duration - buffer * 2.0;
    var spacing := equipmentDuration / Max((count - 1) as real, 1.0);
    if count == 1 then
      Timing(SingleActionStart(custom, spacing, actionStartTime), spacing)
    else if custom.Some? then
      var pct := CustomActionStartTime(custom.value);
      Timing(actionStartTime + equipmentDuration * pct, spacing * (1.0 - pct))
    else
      Timing(actionStartTime, spacing)
  }

  /** A sound, unless it is null or empty. */
  function Audible(sound: Option<string>): Option<string>
  {
    if sound.Some? && sound.value != "" then sound else None
  }

  /** The sound of sub-attack `i` of `count`: the first sound for the first
      one, the last sound for the last one of several, the middle sound for
      the others. */
  function SoundAt(audio: Option<ActivationAudio>, i: int, count: int): (r: Option<string>)
    ensures r.Some? ==> audio.Some? && r.value != ""
    ensures r.Some? && i == 0 ==> r == audio.value.onActivationFirst
    ensures r.Some? && i != 0 && i == count - 1 ==> r == audio.value.onActivationLast
  {
    if audio.None? then None
    else if i == 0 then Audible(audio.value.onActivationFirst)
    else if i == count - 1 then Audible(audio.value.onActivationLast)
    else Audible(audio.value.onActivationMid)
  }

  /** Sub-attack `i` of `count` of action `actionId`, starting at `time`. */
  function SubAttackAt(actionId: int, count: int, i: int, time: real, heat: real, audio: Option<ActivationAudio>): SubAttack
  {
    SubAttack(time, actionId, i, i == 0, i != 0 && i == count - 1, SoundAt(audio, i, count), heat)
  }

  /** Sub-attacks `i` to `count - 1`, the first of them starting at `time`
      and each later one `spacing` after the one before. */
  function Emitted(actionId: int, count: int, i: int, time: real, spacing: real, heat: real,
                   audio: Option<ActivationAudio>): (r: seq<SubAttack>)
    requires 0 <= i <= count
    ensures |r| == count - i
    decreases count - i
  {
    if i == count then
      []
    else
      [SubAttackAt(actionId, count, i, time, heat, audio)]
        + Emitted(actionId, count, i + 1, time + spacing, spacing, heat, audio)
  }

  /** The sum of the heat changes of some sub-attacks. */
  function SumHeat(attacks: seq<SubAttack>): real
  {
    if attacks == [] then 0.0 else attacks[0].changeHeat + SumHeat(attacks[1..])
  }

  // ---------------------------------------------------------------------
  // Usage accounting
  // ---------------------------------------------------------------------

  /** The usage counters of every part and the parts already counted this
      turn. */
  datatype Accounting = Accounting(usage: map<int, PartUsage>, activated: set<int>)

  /** One more activation of part `partId`; a turn is counted the first time
      the part is activated in it. */
  function Account(usage: map<int, PartUsage>, activated: set<int>, partId: int): (r: Accounting)
    ensures r.activated == activated + {partId}
    ensures r.usage.Keys == usage.Keys + {partId}
  {
    var newActivations := if partId in usage then usage[partId].activations + 1 else 1;
    var newTurns := if partId in usage then usage[partId].turns else 0;
    if partId !in activated then
      Accounting(usage[partId := PartUsage(newTurns + 1, newActivations)], activated + {partId})
    else
      Accounting(usage[partId := PartUsage(newTurns, newActivations)], activated)
  }

  /** The owner is a unit of the player's faction. */
  predicate IsPlayerOwned(owner: int, host: Host)
  {
    owner in host.factions && host.factions[owner] == PlayerFaction
  }

  // ---------------------------------------------------------------------
  // One tick of the scheduler
  // ---------------------------------------------------------------------

  /** Why an action in its window is not expanded. */
  datatype AbortReason = MissingPart | InvalidAction | NoPrimarySubsystem | NoActivationProcessed | NoActions | NoOwner

  /** What an action in its window resolves to: the entities and stats it
      is expanded with, or the first check it fails. */
  datatype Resolution =
    | Expand(part: Part, data: SubsystemData, processed: ActivationProcessed, count: int, owner: int)
    | Abort(reason: AbortReason)

  /** The checks an action goes through before it is expanded, in order. */
  function Resolve(e: EquipmentAction, host: Host): (r: Resolution)
    ensures r.Expand? ==>
      && e.equipmentId in host.parts
      && r.part == host.parts[e.equipmentId]
      && e.id in host.validActions
      && r.part.primaryActivationSubsystem.Some?
      && r.part.primaryActivationSubsystem.value in host.subsystems
      && r.data == host.subsystems[r.part.primaryActivationSubsystem.value]
      && r.data.activationProcessed == Some(r.processed)
      && r.count == r.part.actCount >= 1
      && e.actionOwner == Some(r.owner)
    ensures e.equipmentId !in host.parts ==> r == Abort(MissingPart)
    ensures e.equipmentId in host.parts && host.parts[e.equipmentId].actCount <= 0 ==> r.Abort?
    ensures e.actionOwner.None? ==> r.Abort?
    ensures (&& e.equipmentId in host.parts
             && e.id in host.validActions
             && host.parts[e.equipmentId].primaryActivationSubsystem.Some?
             && host.parts[e.equipmentId].primaryActivationSubsystem.value in host.subsystems
             && host.subsystems[host.parts[e.equipmentId].primaryActivationSubsystem.value].activationProcessed.Some?
             && host.parts[e.equipmentId].actCount >= 1
             && e.actionOwner.Some?)
            ==> r.Expand?
  {
    if e.equipmentId !in host.parts then Abort(MissingPart)
    else
      var part := host.parts[e.equipmentId];
      if e.id !in host.validActions then Abort(InvalidAction)
      else if part.primaryActivationSubsystem.None? then Abort(NoPrimarySubsystem)
      else
        var subsystemId := part.primaryActivationSubsystem.value;
        if subsystemId !in host.subsystems || host.subsystems[subsystemId].activationProcessed.None? then
          Abort(NoActivationProcessed)
        else
          var data := host.subsystems[subsystemId];
          if part.actCount <= 0 then Abort(NoActions)
          else if e.actionOwner.None? then Abort(NoOwner)
          else Expand(part, data, data.activationProcessed.value, part.actCount, e.actionOwner.value)
  }

  /** Everything the scheduler reads and writes between ticks. */
  datatype SchedulerState = SchedulerState(
    actions: seq<EquipmentAction>,
    partUsage: map<int, PartUsage>,
    activated: set<int>,
    scheduled: seq<SubAttack>)

  /** The effect of expanding action `e` that has passed its checks: its
      part's usage is counted if the player owns it, and its sub-attacks are
      scheduled. An action that fails a check has no effect. */
  function Expanded(s: SchedulerState, e: EquipmentAction, host: Host): (r: SchedulerState)
    ensures r.actions == s.actions
    ensures s.scheduled <= r.scheduled
    ensures Resolve(e, host).Abort? ==> r == s
  {
    match Resolve(e, host)
    case Abort(_) => s
    case Expand(part, data, processed, count, owner) =>
      var accounting :=
        if IsPlayerOwned(owner, host) then Account(s.partUsage, s.activated, e.equipmentId)
        else Accounting(s.partUsage, s.activated);
      var timing := ActionTiming(e.startTime, e.duration, host.targetedActionBuffer, count, data.customProcessed);
      var attacks := Emitted(e.id, count, 0, timing.actionStartTime, timing.spacing,
                             part.actHeat / count as real, processed.audio);
      s.(partUsage := accounting.usage, activated := accounting.activated, scheduled := s.scheduled + attacks)
  }

  /** The action at position `k` is expanded if it is pending and in its
      window at `time`; it is marked completed before anything else. */
  function Step(s: SchedulerState, k: nat, time: real, host: Host): (r: SchedulerState)
    requires k < |s.actions|
    ensures |r.actions| == |s.actions|
  {
    var e := s.actions[k];
    if e.completed || !ContainsTime(time, e.startTime, e.duration) then s
    else Expanded(s.(actions := s.actions[k := e.(completed := true)]), e, host)
  }

  /** The state after the actions before position `k` have been stepped. */
  function StepsUpTo(s: SchedulerState, k: nat, time: real, host: Host): (r: SchedulerState)
    requires k <= |s.actions|
    ensures |r.actions| == |s.actions|
  {
    if k == 0 then s else Step(StepsUpTo(s, k - 1, time, host), k - 1, time, host)
  }

  /** One tick over every pending action. */
  function Tick(s: SchedulerState, time: real, host: Host): (r: SchedulerState)
    ensures |r.actions| == |s.actions|
  {
    StepsUpTo(s, |s.actions|, time, host)
  }

  // ---------------------------------------------------------------------
  // Properties of the timeline and of the sub-attacks
  // ---------------------------------------------------------------------

  /** The accumulated start times are an arithmetic progression: the
      sub-attack at offset `j - i` starts `j - i` spacings after `time`. */
  lemma {:induction false} EmittedAt(actionId: int, count: int, i: int, time: real, spacing: real, heat: real,
                                     audio: Option<ActivationAudio>, j: int)
    requires 0 <= i <= j < count
    ensures Emitted(actionId, count, i, time, spacing, heat, audio)[j - i]
      == SubAttackAt(actionId, count, j, time + (j - i) as real * spacing, heat, audio)
    decreases j - i
  {
    if i < j {
      var rest := Emitted(actionId, count, i + 1, time + spacing, spacing, heat, audio);
      assert Emitted(actionId, count, i, time, spacing, heat, audio)[j - i] == rest[j - (i + 1)];
      EmittedAt(actionId, count, i + 1, time + spacing, spacing, heat, audio, j);
      OneSpacingLater(time, spacing, i, j);
    } else {
      assert (j - i) as real * spacing == 0.0;
    }
  }

  /** Exactly `count` sub-attacks, numbered 0 to `count - 1`, sub-attack `j`
      starting `j` spacings after the first, each with the same heat; only
      the first is flagged as the start and carries the first sound; the last
      is flagged as the end and carries the last sound only when there are
      several; those in between carry the middle sound. */
  lemma EmittedSchedule(actionId: int, count: int, time: real, spacing: real, heat: real,
                        audio: Option<ActivationAudio>, j: int)
    requires 0 <= j < count
    ensures var attacks := Emitted(actionId, count, 0, time, spacing, heat, audio);
      && |attacks| == count
      && attacks[j].startTime == time + j as real * spacing
      && attacks[j].scheduledAttack == actionId
      && attacks[j].subActionIndex == j
      && attacks[j].changeHeat == heat
      && (attacks[j].scheduledAttackStart <==> j == 0)
      && (attacks[j].scheduledAttackEnd <==> 1 < count && j == count - 1)
      && (audio.None? ==> attacks[j].activationSound.None?)
      && (audio.Some? && j == 0 ==> attacks[j].activationSound == Audible(audio.value.onActivationFirst))
      && (audio.Some? && 0 < j == count - 1 ==> attacks[j].activationSound == Audible(audio.value.onActivationLast))
      && (audio.Some? && 0 < j < count - 1 ==> attacks[j].activationSound == Audible(audio.value.onActivationMid))
  {
    EmittedAt(actionId, count, 0, time, spacing, heat, audio, j);
  }

  /** A sound is only ever set when it is present and not empty. */
  lemma SoundsAreAudible(actionId: int, count: int, time: real, spacing: real, heat: real,
                         audio: Option<ActivationAudio>, j: int)
    requires 0 <= j < count
    ensures var sound := Emitted(actionId, count, 0, time, spacing, heat, audio)[j].activationSound;
      sound.Some? ==>
        (sound.value != "" && audio.Some? &&
         sound in {audio.value.onActivationFirst, audio.value.onActivationMid, audio.value.onActivationLast})
  {
    EmittedAt(actionId, count, 0, time, spacing, heat, audio, j);
  }

  lemma {:induction false} SumHeatEmitted(actionId: int, count: int, i: int, time: real, spacing: real, heat: real,
                                          audio: Option<ActivationAudio>)
    requires 0 <= i <= count
    ensures SumHeat(Emitted(actionId, count, i, time, spacing, heat, audio)) == (count - i) as real * heat
    decreases count - i
  {
    if i < count {
      var attacks := Emitted(actionId, count, i, time, spacing, heat, audio);
      assert attacks[1..] == Emitted(actionId, count, i + 1, time + spacing, spacing, heat, audio);
      SumHeatEmitted(actionId, count, i + 1, time + spacing, spacing, heat, audio);
    }
  }

  /** The equal heat shares of the sub-attacks add up to the activation
      heat. */
  lemma HeatAddsUp(actionId: int, count: int, time: real, spacing: real, activationHeat: real,
                   audio: Option<ActivationAudio>)
    requires count >= 1
    ensures SumHeat(Emitted(actionId, count, 0, time, spacing, activationHeat / count as real, audio)) == activationHeat
  {
    SumHeatEmitted(actionId, count, 0, time, spacing, activationHeat / count as real, audio);
  }

  /** The bias fraction the timeline uses for several sub-attacks. */
  function Bias(custom: Option<CustomData>): real
  {
    if custom.Some? then CustomActionStartTime(custom.value) else 0.0
  }

  /** With several sub-attacks, the first one waits the configured fraction
      of the usable window after its buffered start, and the last one falls
      on the buffered end of the window whatever that fraction is. */
  lemma MultiShotEnds(startTime: real, duration: real, buffer: real, count: int, custom: Option<CustomData>)
    requires count > 1
    ensures var timing, usable := ActionTiming(startTime, duration, buffer, count, custom), duration - buffer * 2.0;
      && timing.actionStartTime == startTime + buffer + usable * Bias(custom)
      && timing.actionStartTime + (count - 1) as real * timing.spacing == startTime + buffer + usable
  {
    var usable := duration - buffer * 2.0;
    var pct := Bias(custom);
    var n := (count - 1) as real;
    var even := usable / n;
    assert Max(n, 1.0) == n;
    assert n * even == usable;
    calc {
      n * (even * (1.0 - pct));
      (n * even) * (1.0 - pct);
      usable * (1.0 - pct);
    }
  }

  /** A single sub-attack stays between the buffered start and the buffered
      end of its window. */
  lemma SingleShotInWindow(startTime: real, duration: real, buffer: real, custom: Option<CustomData>)
    requires duration >= buffer * 2.0
    ensures var first := ActionTiming(startTime, duration, buffer, 1, custom).actionStartTime;
      startTime + buffer <= first <= startTime + duration - buffer
  {
    assert Max(0.0, 1.0) == 1.0;
  }

  /** Every sub-attack starts between the buffered start and the buffered
      end of its window, when the window is longer than both buffers. */
  lemma SubAttacksInWindow(startTime: real, duration: real, buffer: real, count: int, custom: Option<CustomData>, j: int)
    requires duration >= buffer * 2.0
    requires 0 <= j < count
    ensures var timing := ActionTiming(startTime, duration, buffer, count, custom);
      startTime + buffer <= timing.actionStartTime + j as real * timing.spacing <= startTime + duration - buffer
  {
    var timing := ActionTiming(startTime, duration, buffer, count, custom);
    if count == 1 {
      SingleShotInWindow(startTime, duration, buffer, custom);
    } else {
      MultiShotEnds(startTime, duration, buffer, count, custom);
      SpacingNonnegative(startTime, duration, buffer, count, custom);
      InWindow(startTime + buffer, duration - buffer * 2.0, timing.actionStartTime, timing.spacing,
               Bias(custom), (count - 1) as real, j as real);
    }
  }

  /** Within a window at least two buffers long, sub-attacks never go
      backwards in time. */
  lemma SpacingNonnegative(startTime: real, duration: real, buffer: real, count: int, custom: Option<CustomData>)
    requires duration >= buffer * 2.0
    requires count > 1
    ensures ActionTiming(startTime, duration, buffer, count, custom).spacing >= 0.0
  {
    var usable := duration - buffer * 2.0;
    var n := (count - 1) as real;
    assert Max(n, 1.0) == n;
    assert usable / n >= 0.0;
    if custom.Some? {
      var pct := CustomActionStartTime(custom.value);
      ScaleMonotone(0.0, usable / n, 1.0 - pct);
    }
  }

  /** The window arithmetic of `SubAttacksInWindow`, with the timeline
      abstracted away: a progression from `first` that ends at `lo + usable`
      stays inside `[lo, lo + usable]`. */
  lemma InWindow(lo: real, usable: real, first: real, spacing: real, bias: real, n: real, j: real)
    requires 0.0 <= usable && 0.0 <= bias && 0.0 <= spacing && 0.0 <= j <= n
    requires first == lo + usable * bias
    requires first + n * spacing == lo + usable
    ensures lo <= first + j * spacing <= lo + usable
  {
    ScaleMonotone(0.0, usable, bias);
    ScaleMonotone(0.0, j, spacing);
    ScaleMonotone(j, n, spacing);
  }

  /** One spacing from index `i` and then the spacings from `i + 1` to `j`
      are the spacings from `i` to `j`. */
  lemma OneSpacingLater(time: real, spacing: real, i: int, j: int)
    ensures time + spacing + (j - (i + 1)) as real * spacing == time + (j - i) as real * spacing
  {
    var m := (j - i) as real;
    assert (j - (i + 1)) as real == m - 1.0;
    assert (m - 1.0) * spacing == m * spacing - spacing;
  }

  lemma ScaleMonotone(a: real, b: real, c: real)
    requires a <= b && 0.0 <= c
    ensures a * c <= b * c
  {
    assert b * c - a * c == (b - a) * c;
  }

  /** With no custom data, several sub-attacks are spread evenly over the
      usable window, from its buffered start to its buffered end. */
  lemma EvenSpacingWithoutCustomData(startTime: real, duration: real, buffer: real, count: int)
    requires count > 1
    ensures ActionTiming(startTime, duration, buffer, count, None)
      == Timing(startTime + buffer, (duration - buffer * 2.0) / (count - 1) as real)
  {
    assert Max((count - 1) as real, 1.0) == (count - 1) as real;
  }

  /** A window opening at 10 and lasting 10 with a buffer of 1 and the
      `middle` keyword puts a single sub-attack at 15. */
  lemma MiddleKeywordExample()
    ensures ActionTiming(10.0, 10.0, 1.0, 1, Some(CustomData(None, Some(map[ActionStartTimeKey := "middle"])))).actionStartTime
      == 15.0
  {
    var custom := Some(CustomData(None, Some(map[ActionStartTimeKey := "middle"])));
    assert StartKeyword(custom) == Some("middle");
    assert Max(0.0, 1.0) == 1.0;
  }

  /** Four sub-attacks without custom data in a window opening at 0 and
      lasting 10 with a buffer of 1 start at 1, 11/3, 19/3 and 9. */
  lemma EvenSpacingExample(actionId: int, heat: real, audio: Option<ActivationAudio>)
    ensures var timing := ActionTiming(0.0, 10.0, 1.0, 4, None);
      var attacks := Emitted(actionId, 4, 0, timing.actionStartTime, timing.spacing, heat, audio);
      && attacks[0].startTime == 1.0
      && attacks[1].startTime == 11.0 / 3.0
      && attacks[2].startTime == 19.0 / 3.0
      && attacks[3].startTime == 9.0
  {
    var timing := ActionTiming(0.0, 10.0, 1.0, 4, None);
    EvenSpacingWithoutCustomData(0.0, 10.0, 1.0, 4);
    assert timing == Timing(1.0, 8.0 / 3.0);
    EmittedSchedule(actionId, 4, 1.0, 8.0 / 3.0, heat, audio, 1);
    EmittedSchedule(actionId, 4, 1.0, 8.0 / 3.0, heat, audio, 2);
    EmittedSchedule(actionId, 4, 1.0, 8.0 / 3.0, heat, audio, 3);
  }

  /** A configured fraction of 1.5 is out of range and ignored. */
  lemma OutOfRangeFractionIgnored()
    ensures CustomActionStartTime(CustomData(Some(map[ActionStartTimeKey := 1.5]), None)) == 0.0
  {}

  // ---------------------------------------------------------------------
  // Properties of the usage accounting
  // ---------------------------------------------------------------------

  /** One activation is always counted; a turn only when the part was not
      yet activated this turn; afterwards the part is in the set, and no
      other part's counters or membership change. */
  lemma AccountCounts(usage: map<int, PartUsage>, activated: set<int>, partId: int)
    ensures var r := Account(usage, activated, partId);
      && partId in r.usage
      && r.usage[partId].activations == (if partId in usage then usage[partId].activations else 0) + 1
      && r.usage[partId].turns == (if partId in usage then usage[partId].turns else 0) + (if partId in activated then 0 else 1)
      && r.activated == activated + {partId}
      && (forall p :: p != partId ==> (p in r.usage <==> p in usage))
      && (forall p :: p != partId && p in usage ==> r.usage[p] == usage[p])
  {}

  /** Two activations of a part in the same turn count two activations and
      at most one turn. */
  lemma TwoActivationsInOneTurn(usage: map<int, PartUsage>, activated: set<int>, partId: int)
    ensures var once := Account(usage, activated, partId);
      var twice := Account(once.usage, once.activated, partId);
      && twice.usage[partId].activations == (if partId in usage then usage[partId].activations else 0) + 2
      && twice.usage[partId].turns == (if partId in usage then usage[partId].turns else 0) + (if partId in activated then 0 else 1)
  {
    AccountCounts(usage, activated, partId);
    var once := Account(usage, activated, partId);
    AccountCounts(once.usage, once.activated, partId);
  }

  /** Once the per-turn set has been cleared for a new turn, the next
      activation counts a turn again. */
  lemma NewTurnCountsAgain(usage: map<int, PartUsage>, activated: set<int>, partId: int)
    ensures var once := Account(usage, activated, partId);
      var next := Account(once.usage, {}, partId);
      next.usage[partId].turns == once.usage[partId].turns + 1
  {}

  // ---------------------------------------------------------------------
  // Properties of a step and of a tick
  // ---------------------------------------------------------------------

  /** An action already completed, or whose window does not hold the
      simulation time, is left alone: no sub-attacks, no counter changes. */
  lemma SettledActionUntouched(s: SchedulerState, k: nat, time: real, host: Host)
    requires k < |s.actions|
    requires s.actions[k].completed || !ContainsTime(time, s.actions[k].startTime, s.actions[k].duration)
    ensures Step(s, k, time, host) == s
  {}

  /** An action that fails any of its checks ends up completed, with no
      sub-attacks and no counter changes. */
  lemma FailedCheckOnlyCompletes(s: SchedulerState, k: nat, time: real, host: Host)
    requires k < |s.actions|
    requires !s.actions[k].completed && ContainsTime(time, s.actions[k].startTime, s.actions[k].duration)
    requires Resolve(s.actions[k], host).Abort?
    ensures var r := Step(s, k, time, host);
      && r.actions == s.actions[k := s.actions[k].(completed := true)]
      && r.partUsage == s.partUsage && r.activated == s.activated && r.scheduled == s.scheduled
  {}

  /** In particular, a part with no actions to perform schedules nothing. */
  lemma NoActionsSchedulesNothing(s: SchedulerState, k: nat, time: real, host: Host)
    requires k < |s.actions|
    requires s.actions[k].equipmentId in host.parts && host.parts[s.actions[k].equipmentId].actCount <= 0
    ensures Step(s, k, time, host).scheduled == s.scheduled
    ensures Step(s, k, time, host).partUsage == s.partUsage
    ensures Step(s, k, time, host).activated == s.activated
  {}

  /** An action that passes its checks is completed, its `count`
      sub-attacks are appended after those already scheduled, and its part's
      usage is counted exactly when the owner is of the player's faction. */
  lemma ExpandedActionSchedules(s: SchedulerState, k: nat, time: real, host: Host)
    requires k < |s.actions|
    requires !s.actions[k].completed && ContainsTime(time, s.actions[k].startTime, s.actions[k].duration)
    requires Resolve(s.actions[k], host).Expand?
    ensures var r, e, x := Step(s, k, time, host), s.actions[k], Resolve(s.actions[k], host);
      && r.actions == s.actions[k := e.(completed := true)]
      && |r.scheduled| == |s.scheduled| + x.count
      && r.scheduled[..|s.scheduled|] == s.scheduled
      && (forall j :: |s.scheduled| <= j < |r.scheduled| ==>
            r.scheduled[j].scheduledAttack == e.id && r.scheduled[j].subActionIndex == j - |s.scheduled|)
      && (var t := ActionTiming(e.startTime, e.duration, host.targetedActionBuffer, x.count, x.data.customProcessed);
          r.scheduled[|s.scheduled|..]
            == Emitted(e.id, x.count, 0, t.actionStartTime, t.spacing, x.part.actHeat / x.count as real, x.processed.audio))
      && (IsPlayerOwned(x.owner, host) ==>
            Accounting(r.partUsage, r.activated) == Account(s.partUsage, s.activated, e.equipmentId))
      && (!IsPlayerOwned(x.owner, host) ==> r.partUsage == s.partUsage && r.activated == s.activated)
  {
    var r, e, x := Step(s, k, time, host), s.actions[k], Resolve(s.actions[k], host);
    var timing := ActionTiming(e.startTime, e.duration, host.targetedActionBuffer, x.count, x.data.customProcessed);
    var attacks := Emitted(e.id, x.count, 0, timing.actionStartTime, timing.spacing, x.part.actHeat / x.count as real, x.processed.audio);
    assert r.scheduled == s.scheduled + attacks;
    assert r.scheduled[|s.scheduled|..] == attacks;
    forall j | |s.scheduled| <= j < |r.scheduled|
      ensures r.scheduled[j].scheduledAttack == e.id && r.scheduled[j].subActionIndex == j - |s.scheduled|
    {
      EmittedSchedule(e.id, x.count, timing.actionStartTime, timing.spacing, x.part.actHeat / x.count as real,
                      x.processed.audio, j - |s.scheduled|);
    }
  }

  /** After the first `k` steps, each of the first `k` actions is completed
      or outside its window, the others are as they were, and sub-attacks
      have only been appended. */
  lemma {:induction false} StepsUpToSettles(s: SchedulerState, k: nat, time: real, host: Host)
    requires k <= |s.actions|
    ensures var r := StepsUpTo(s, k, time, host);
      && (forall j :: 0 <= j < k ==>
            r.actions[j].completed || !ContainsTime(time, r.actions[j].startTime, r.actions[j].duration))
      && (forall j :: k <= j < |s.actions| ==> r.actions[j] == s.actions[j])
      && (forall j :: 0 <= j < |s.actions| ==>
            r.actions[j].(completed := s.actions[j].completed) == s.actions[j] &&
            (s.actions[j].completed ==> r.actions[j].completed))
      && s.scheduled <= r.scheduled
  {
    if k > 0 {
      StepsUpToSettles(s, k - 1, time, host);
      StepOnlyCompletes(StepsUpTo(s, k - 1, time, host), k - 1, time, host);
    }
  }

  /** Expanding an action leaves the actions alone and only appends
      sub-attacks. */
  lemma ExpandedOnlyAppends(s: SchedulerState, e: EquipmentAction, host: Host)
    ensures Expanded(s, e, host).actions == s.actions
    ensures s.scheduled <= Expanded(s, e, host).scheduled
  {}

  /** A step changes at most the completed flag of its own action, which
      it can only set, and only appends sub-attacks. */
  lemma StepOnlyCompletes(p: SchedulerState, k: nat, time: real, host: Host)
    requires k < |p.actions|
    ensures var r, e := Step(p, k, time, host), p.actions[k];
      && r.actions == (if e.completed || !ContainsTime(time, e.startTime, e.duration) then p.actions
                       else p.actions[k := e.(completed := true)])
      && p.scheduled <= r.scheduled
  {
    var e := p.actions[k];
    ExpandedOnlyAppends(p.(actions := p.actions[k := e.(completed := true)]), e, host);
  }

  /** When every action is completed or outside its window, a tick changes
      nothing. */
  lemma {:induction false} SettledStepsChangeNothing(s: SchedulerState, k: nat, time: real, host: Host)
    requires k <= |s.actions|
    requires forall j :: 0 <= j < |s.actions| ==>
      s.actions[j].completed || !ContainsTime(time, s.actions[j].startTime, s.actions[j].duration)
    ensures StepsUpTo(s, k, time, host) == s
  {
    if k > 0 {
      SettledStepsChangeNothing(s, k - 1, time, host);
    }
  }

  /** A second tick at the same simulation time creates no more sub-attacks
      and changes no counters: every action is expanded at most once. */
  lemma TickIdempotent(s: SchedulerState, time: real, host: Host)
    ensures Tick(Tick(s, time, host), time, host) == Tick(s, time, host)
  {
    var once := Tick(s, time, host);
    StepsUpToSettles(s, |s.actions|, time, host);
    SettledStepsChangeNothing(once, |once.actions|, time, host);
  }

  // ---------------------------------------------------------------------
  // The system
  // ---------------------------------------------------------------------

  /** The equipment action system: it holds the group of equipment actions,
      the usage counters of the parts, the shared set of parts already
      activated this turn and the sub-attacks it has created. */
  class EquipmentActionSystem {
    var equipmentActions: seq<EquipmentAction>
    var partUsage: map<int, PartUsage>
    var partIDsActivatedThisTurn: set<int>
    var scheduled: seq<SubAttack>

    function State(): SchedulerState
      reads this
    {
      SchedulerState(equipmentActions, partUsage, partIDsActivatedThisTurn, scheduled)
    }

    constructor (actions: seq<EquipmentAction>, usage: map<int, PartUsage>, activatedThisTurn: set<int>)
      ensures State() == SchedulerState(actions, usage, activatedThisTurn, [])
    {
      equipmentActions := actions;
      partUsage := usage;
      partIDsActivatedThisTurn := activatedThisTurn;
      scheduled := [];
    }

    /** One tick at simulation time `simulationTime`. */
    method Execute(simulationTime: real, host: Host)
      modifies this
      ensures State() == Tick(old(State()), simulationTime, host)
    {
      var n := |equipmentActions|;
      var k := 0;
      while k < n
        invariant 0 <= k <= n == |equipmentActions|
        invariant State() == StepsUpTo(old(State()), k, simulationTime, host)
      {
        ProcessAction(k, simulationTime, host);
        k := k + 1;
      }
    }

    /** The body of the tick for the equipment action at position `k`. */
    method ProcessAction(k: nat, simulationTime: real, host: Host)
      requires k < |equipmentActions|
      modifies this
      ensures State() == Step(old(State()), k, simulationTime, host)
    {
      var equipmentAction := equipmentActions[k];
      if equipmentAction.completed {
        return;
      }
      if !ContainsTime(simulationTime, equipmentAction.startTime, equipmentAction.duration) {
        return;
      }

      equipmentActions := equipmentActions[k := equipmentAction.(completed := true)];
      ExpandAction(equipmentAction, host);
    }

    /** The checks and the expansion of an action that has just been marked
        completed. */
    method ExpandAction(equipmentAction: EquipmentAction, host: Host)
      modifies this`partUsage, this`partIDsActivatedThisTurn, this`scheduled
      ensures State() == Expanded(old(State()), equipmentAction, host)
    {
      if equipmentAction.equipmentId !in host.parts {
        assert Resolve(equipmentAction, host) == Abort(MissingPart);
        return;
      }
      var equipmentEntity := host.parts[equipmentAction.equipmentId];
      if equipmentAction.id !in host.validActions {
        assert Resolve(equipmentAction, host) == Abort(InvalidAction);
        return;
      }
      if equipmentEntity.primaryActivationSubsystem.None? {
        assert Resolve(equipmentAction, host) == Abort(NoPrimarySubsystem);
        return;
      }
      var subsystemId := equipmentEntity.primaryActivationSubsystem.value;
      if subsystemId !in host.subsystems || host.subsystems[subsystemId].activationProcessed.None? {
        assert Resolve(equipmentAction, host) == Abort(NoActivationProcessed);
        return;
      }
      var data := host.subsystems[subsystemId];
      var activationProcessed := data.activationProcessed.value;

      var count := equipmentEntity.actCount;
      if count <= 0 {
        assert Resolve(equipmentAction, host) == Abort(NoActions);
        return;
      }
      if equipmentAction.actionOwner.None? {
        assert Resolve(equipmentAction, host) == Abort(NoOwner);
        return;
      }

      assert Resolve(equipmentAction, host) == Expand(equipmentEntity, data, activationProcessed, count, equipmentAction.actionOwner.value);
      ExpandChecked(equipmentAction, host, equipmentEntity, data, activationProcessed, count, equipmentAction.actionOwner.value);
    }

    /** The expansion of an action that has passed every check: usage,
        timeline and sub-attacks. */
    method ExpandChecked(equipmentAction: EquipmentAction, host: Host, equipmentEntity: Part, data: SubsystemData,
                         activationProcessed: ActivationProcessed, count: int, owner: int)
      requires Resolve(equipmentAction, host) == Expand(equipmentEntity, data, activationProcessed, count, owner)
      modifies this`partUsage, this`partIDsActivatedThisTurn, this`scheduled
      ensures State() == Expanded(old(State()), equipmentAction, host)
    {
      if owner in host.factions && host.factions[owner] == PlayerFaction {
        CountUsage(equipmentAction.equipmentId);
      }
      ghost var counted := Accounting(partUsage, partIDsActivatedThisTurn);
      assert counted ==
        if IsPlayerOwned(owner, host) then Account(old(partUsage), old(partIDsActivatedThisTurn), equipmentAction.equipmentId)
        else Accounting(old(partUsage), old(partIDsActivatedThisTurn));

      var actionStartTime, spacing := TimeLine(equipmentAction, host.targetedActionBuffer, count, data.customProcessed);
      var newHeatChange := equipmentEntity.actHeat / count as real;
      ScheduleSubAttacks(equipmentAction.id, count, actionStartTime, spacing, newHeatChange, activationProcessed.audio);
    }

    /** The start of the first sub-attack and the spacing between
        sub-attacks, computed as the timeline of `ActionTiming`. */
    method TimeLine(equipmentAction: EquipmentAction, targetedActionBuffer: real, count: int,
                    customProcessed: Option<CustomData>) returns (actionStartTime: real, spacing: real)
      requires count >= 1
      ensures Timing(actionStartTime, spacing)
        == ActionTiming(equipmentAction.startTime, equipmentAction.duration, targetedActionBuffer, count, customProcessed)
    {
      actionStartTime := equipmentAction.startTime + targetedActionBuffer;
      var equipmentDuration := equipmentAction.duration - targetedActionBuffer * 2.0;
      spacing := equipmentDuration / Max((count - 1) as real, 1.0);
      if count == 1 {
        actionStartTime := SingleActionStart(customProcessed, spacing, actionStartTime);
      } else if customProcessed.Some? {
        var pct := CustomActionStartTime(customProcessed.value);
        actionStartTime := actionStartTime + equipmentDuration * pct;
        spacing := spacing * (1.0 - pct);
      }
    }

    /** Counts one more activation of part `partId`, and one more turn the
        first time the part is activated in this turn. */
    method CountUsage(partId: int)
      modifies this`partUsage, this`partIDsActivatedThisTurn
      ensures Accounting(partUsage, partIDsActivatedThisTurn)
        == Account(old(partUsage), old(partIDsActivatedThisTurn), partId)
    {
      var newActivations := if partId in partUsage then partUsage[partId].activations + 1 else 1;
      var newTurns := if partId in partUsage then partUsage[partId].turns else 0;
      if partId !in partIDsActivatedThisTurn {
        newTurns := newTurns + 1;
        partIDsActivatedThisTurn := partIDsActivatedThisTurn + {partId};
      }
      partUsage := partUsage[partId := PartUsage(newTurns, newActivations)];
    }

    /** Creates the `count` sub-attacks of action `actionId`, the first at
        `actionStartTime` and each later one `spacing` after the one before. */
    method ScheduleSubAttacks(actionId: int, count: int, actionStartTime: real, spacing: real,
                              newHeatChange: real, audio: Option<ActivationAudio>)
      requires count >= 1
      modifies this`scheduled
      ensures scheduled == old(scheduled) + Emitted(actionId, count, 0, actionStartTime, spacing, newHeatChange, audio)
    {
      var time := actionStartTime;
      var i := 0;
      while i < count
        invariant 0 <= i <= count
        invariant scheduled + Emitted(actionId, count, i, time, spacing, newHeatChange, audio)
          == old(scheduled) + Emitted(actionId, count, 0, actionStartTime, spacing, newHeatChange, audio)
      {
        var start, end := false, false;
        var sound: Option<string> := None;
        if i == 0 {
          start := true;
          if audio.Some? && audio.value.onActivationFirst.Some? && audio.value.onActivationFirst.value != "" {
            sound := audio.value.onActivationFirst;
          }
        } else if i == count - 1 {
          end := true;
          if audio.Some? && audio.value.onActivationLast.Some? && audio.value.onActivationLast.value != "" {
            sound := audio.value.onActivationLast;
          }
        } else if audio.Some? && audio.value.onActivationMid.Some? && audio.value.onActivationMid.value != "" {
          sound := audio.value.onActivationMid;
        }
        scheduled := scheduled + [SubAttack(time, actionId, i, start, end, sound, newHeatChange)];
        time := time + spacing;
        i := i + 1;
      }
    }
  }
}
