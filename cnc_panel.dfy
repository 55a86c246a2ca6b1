/** Values and pure rules of the CNC operator-panel trainer: the job presets,
    the pre-start checklist, the guardrail limits, the alarm list helpers, the
    outputs that a finished cycle must produce, and the bounded history
    buffer behind the sparklines. The object whose fields the panel updates
    in place is CncMachine.Machine. */
module CncPanel {

  import opened Options

  /** The panel state ("IDLE", "RUNNING", "PAUSED", "ALARM", "OFFLINE"). */
  datatype PanelState = Idle | Running | Paused | Alarmed | Offline

  // Guardrail limits. Overrides are integer percent of the programmed feed
  // and spindle speed (the source keeps them as fractions such as 0.60).
  const FeedMin: int := 60
  const FeedMax: int := 115
  const SpindleMin: int := 70
  const SpindleMax: int := 110
  const StepDown: int := 10
  const StepUp: int := 5
  const OffsetSoftLimitUm: int := 40
  const OffsetHardLimitUm: int := 120

  /** The supervisor key that arms the override. */
  const OverrideKey: string := "SUP-OVR"
  /** An operator id must have at least this many characters once trimmed. */
  const MinOperatorIdLength: nat := 4
  /** The value of an evidence selector that confirms an item. */
  const Yes: string := "YES"

  function Min(a: int, b: int): int { if a <= b then a else b }
  function Max(a: int, b: int): int { if a <= b then b else a }
  function Abs(x: int): nat { if x < 0 then -x else x }

  /** Math.max(lo, Math.min(hi, x)). */
  function Clamp(x: int, lo: int, hi: int): (r: int)
    ensures lo <= hi ==> lo <= r <= hi
    ensures lo <= x <= hi ==> r == x
    ensures x < lo ==> r == lo
    ensures lo <= hi < x ==> r == hi
  {
    Max(lo, Min(hi, x))
  }

  // ---------------------------------------------------------------------
  // Jobs

  datatype JobKey = LatheShaft | LatheBushing | VmcBracket | FiveAxImpeller

  /** The named outputs a job may require before its run can be exported. */
  datatype OutputKey = CycleReportKey | PartResultKey | MetrologyKey | AlarmSummaryKey | OperatorLogKey

  const AllOutputs: seq<OutputKey> :=
    [CycleReportKey, PartResultKey, MetrologyKey, AlarmSummaryKey, OperatorLogKey]

  /** A job preset; the G-code preview text is presentation and is left out. */
  datatype Job = Job(
    name: string,
    ops: seq<string>,
    cycleSec: nat,
    requiresProbe: bool,
    requiresDryRun: bool,
    requiredTools: seq<string>,
    outputsRequired: seq<OutputKey>)

  /** The four presets of the job table. */
  function JobOf(key: JobKey): (j: Job)
    ensures 0 < |j.ops| && 0 < j.cycleSec
    ensures j.requiresProbe
    ensures j.requiresDryRun <==> key != LatheBushing
    ensures j.outputsRequired == AllOutputs
  {
    match key
    case LatheShaft =>
      Job("LATHE • Shaft (4140)",
          ["OP10 Face+Center", "OP20 Rough Turn", "OP30 Finish Turn", "OP40 Thread", "OP50 Probe"],
          70, true, true, ["T0101", "T0202", "T0404", "T0909"], AllOutputs)
    case LatheBushing =>
      Job("LATHE • Bushing (6061)",
          ["OP10 Face", "OP20 Bore", "OP30 Chamfer", "OP40 Probe"],
          50, true, false, ["T0101", "T0303", "T0909"], AllOutputs)
    case VmcBracket =>
      Job("VMC • Bracket (6061)",
          ["OP10 Drill", "OP20 Pocket", "OP30 Contour", "OP40 Chamfer", "OP50 Probe"],
          110, true, true, ["T01", "T02", "T03", "T05", "T90"], AllOutputs)
    case FiveAxImpeller =>
      Job("5-AX • Impeller (Ti)",
          ["OP10 Rough", "OP20 Semi", "OP30 5AX Finish", "OP40 Probe"],
          160, true, true, ["T01", "T02", "T03", "T90"], AllOutputs)
  }

  // ---------------------------------------------------------------------
  // Trimming (String.prototype.trim)

  /** The white-space characters that trim removes, restricted to the Latin-1 range. */
  predicate IsSpace(c: char)
  {
    c == ' ' || c == '\t' || c == '\n' || c == '\r' || c == '\U{B}' || c == '\U{C}' || c == '\U{A0}'
  }

  function TrimStart(s: string): (t: string)
    ensures |t| <= |s| && t == s[|s| - |t|..]
    ensures t == [] || !IsSpace(t[0])
    ensures forall k :: 0 <= k < |s| - |t| ==> IsSpace(s[k])
  {
    if s != [] && IsSpace(s[0]) then TrimStart(s[1..]) else s
  }

  function TrimEnd(s: string): (t: string)
    ensures |t| <= |s| && t == s[..|t|]
    ensures t == [] || !IsSpace(t[|t| - 1])
    ensures forall k :: |t| <= k < |s| ==> IsSpace(s[k])
  {
    if s != [] && IsSpace(s[|s| - 1]) then TrimEnd(s[..|s| - 1]) else s
  }

  /** Drops leading and trailing white space: the result is the slice of
      `s` between a white-space prefix and a white-space suffix. */
  function Trim(s: string): (t: string)
    ensures |t| <= |s|
    ensures t == [] || (!IsSpace(t[0]) && !IsSpace(t[|t| - 1]))
    ensures (s == [] || (!IsSpace(s[0]) && !IsSpace(s[|s| - 1]))) ==> t == s
    ensures exists i :: TrimmedAt(s, i, t)
  {
    var u := TrimStart(s);
    var t := TrimEnd(u);
    assert t != [] ==> t[0] == u[0];
    TrimIsSlice(s, u, t);
    t
  }

  /** `t` is the slice of `s` at `i`, with only white space before and after it. */
  predicate TrimmedAt(s: string, i: int, t: string)
  {
    0 <= i <= |s| - |t| && t == s[i..i + |t|]
    && (forall k :: 0 <= k < i ==> IsSpace(s[k]))
    && (forall k :: i + |t| <= k < |s| ==> IsSpace(s[k]))
  }

  /** The two halves of Trim leave a slice between white-space ends. */
  lemma TrimIsSlice(s: string, u: string, t: string)
    requires u == TrimStart(s) && t == TrimEnd(u)
    ensures TrimmedAt(s, |s| - |u|, t)
  {
    SliceOfSuffix(s, u, t, |s| - |u|);
  }

  lemma SliceOfSuffix(s: string, u: string, t: string, i: int)
    requires 0 <= i <= |s| && u == s[i..] && |t| <= |u| && t == u[..|t|]
    requires forall k :: 0 <= k < i ==> IsSpace(s[k])
    requires forall k :: |t| <= k < |u| ==> IsSpace(u[k])
    ensures TrimmedAt(s, i, t)
  {
    assert t == s[i..i + |t|];
    forall k | i + |t| <= k < |s|
      ensures IsSpace(s[k])
    {
      assert s[k] == u[k - i];
    }
  }

  /** `.length` of a JavaScript string: UTF-16 code units, two for each
      character outside the Basic Multilingual Plane. */
  function Utf16Length(s: string): (n: nat)
    ensures |s| <= n <= 2 * |s|
    ensures (forall i :: 0 <= i < |s| ==> s[i] as int < 0x10000) ==> n == |s|
    ensures (exists i :: 0 <= i < |s| && s[i] as int >= 0x10000) ==> n > |s|
  {
    if s == [] then 0
    else
      assert forall i :: 1 <= i < |s| ==> s[i] == s[1..][i - 1];
      (if s[0] as int < 0x10000 then 1 else 2) + Utf16Length(s[1..])
  }

  /** Trimming leaves nothing exactly when the text is all white space. */
  lemma TrimEmptyIff(s: string)
    ensures Trim(s) == [] <==> forall k :: 0 <= k < |s| ==> IsSpace(s[k])
  {
    var u := TrimStart(s);
    if Trim(s) != [] && u != [] {
      assert s[|s| - |u|] == u[0];
    }
  }

  // ---------------------------------------------------------------------
  // The pre-start checklist

  /** The values of the six evidence inputs at the moment of an action. */
  datatype Evidence = Evidence(
    material: string,
    workholding: string,
    toolsLoaded: string,
    probeEnabled: string,
    dryRun: string,
    operatorId: string)

  /** The evidence inputs after the checklist reset button. */
  const BlankEvidence: Evidence := Evidence("", "", "", "", "", "")

  /** The verdict and the six items MAT, FIX, TOOLS, PROBE, DRY, SIGN. */
  datatype Checklist = Checklist(ok: bool, mat: bool, fix: bool, tools: bool, probe: bool, dry: bool, sign: bool)

  /** The tool-table match is a stub in the trainer: any loaded tools match. */
  function ToolsMatchJob(job: Job): (r: bool)
    ensures r
  {
    true
  }

  function ChecklistStatus(job: Job, ev: Evidence): (c: Checklist)
    ensures c.ok <==> c.mat && c.fix && c.tools && c.probe && c.dry && c.sign
    ensures c.mat <==> ev.material == Yes
    ensures c.fix <==> ev.workholding == Yes
    ensures c.tools <==> ev.toolsLoaded == Yes
    ensures c.probe <==> (job.requiresProbe ==> ev.probeEnabled == Yes)
    ensures c.dry <==> (job.requiresDryRun ==> ev.dryRun == Yes)
    ensures c.sign <==> Utf16Length(Trim(ev.operatorId)) >= MinOperatorIdLength
  {
    var items := Checklist(
      false,
      ev.material == Yes,
      ev.workholding == Yes,
      ev.toolsLoaded == Yes && ToolsMatchJob(job),
      ev.probeEnabled == Yes && job.requiresProbe,
      if job.requiresDryRun then ev.dryRun == Yes else true,
      Utf16Length(Trim(ev.operatorId)) >= MinOperatorIdLength);
    var items := if !job.requiresProbe then items.(probe := true) else items;
    items.(ok := items.mat && items.fix && items.tools && items.probe && items.dry && items.sign)
  }

  /** Why a guarded action is refused, if it is: the checklist first, then the e-stop. */
  function GateBlock(checklistOk: bool, estop: bool): (block: Option<Event>)
    ensures block.None? <==> checklistOk && !estop
    ensures block == Some(BlockedChecklist) <==> !checklistOk
    ensures checklistOk && estop ==> block == Some(BlockedEstop)
  {
    if !checklistOk then Some(BlockedChecklist)
    else if estop then Some(BlockedEstop)
    else None
  }

  /** The Start button is enabled: checklist ok, e-stop clear, IDLE. */
  predicate StartAllowed(checklistOk: bool, estop: bool, state: PanelState)
  {
    checklistOk && !estop && state == Idle
  }

  /** The feed, spindle and apply-offsets buttons are enabled: checklist
      ok, e-stop clear, and IDLE, RUNNING or PAUSED. */
  predicate AdjustAllowed(checklistOk: bool, estop: bool, state: PanelState)
  {
    checklistOk && !estop && (state == Idle || state == Running || state == Paused)
  }

  /** An enabled button's handler passes its own guard, an enabled Start
      implies enabled adjustments, and nothing is enabled in ALARM or OFFLINE. */
  lemma EnabledButtonsPassGate(checklistOk: bool, estop: bool, state: PanelState)
    ensures StartAllowed(checklistOk, estop, state) ==> AdjustAllowed(checklistOk, estop, state)
    ensures AdjustAllowed(checklistOk, estop, state) ==> GateBlock(checklistOk, estop).None?
    ensures state == Alarmed || state == Offline ==>
              !StartAllowed(checklistOk, estop, state) && !AdjustAllowed(checklistOk, estop, state)
  {
  }

  // ---------------------------------------------------------------------
  // Work offsets

  /** What the apply-offsets handler does with a requested pair. */
  datatype OffsetVerdict = BlockedHard | BlockedSoft | Accepted(overSoft: bool)

  /** The larger of the two requested magnitudes, in micrometres. */
  function Magnitude(x: int, z: int): nat
  {
    if Abs(x) <= Abs(z) then Abs(z) else Abs(x)
  }

  function CheckOffsets(x: int, z: int, overrideArmed: bool): (v: OffsetVerdict)
    ensures v == BlockedHard <==> Abs(x) > OffsetHardLimitUm || Abs(z) > OffsetHardLimitUm
    ensures v == BlockedSoft <==>
              Abs(x) <= OffsetHardLimitUm && Abs(z) <= OffsetHardLimitUm
              && (Abs(x) > OffsetSoftLimitUm || Abs(z) > OffsetSoftLimitUm) && !overrideArmed
    ensures v.Accepted? ==> Abs(x) <= OffsetHardLimitUm && Abs(z) <= OffsetHardLimitUm
    ensures v.Accepted? ==> (v.overSoft <==> Abs(x) > OffsetSoftLimitUm || Abs(z) > OffsetSoftLimitUm)
  {
    var mag := Magnitude(x, z);
    if mag > OffsetHardLimitUm then BlockedHard
    else if mag > OffsetSoftLimitUm && !overrideArmed then BlockedSoft
    else Accepted(mag > OffsetSoftLimitUm)
  }

  // ---------------------------------------------------------------------
  // Alarms

  datatype Severity = Warning | Critical

  /** One alarm; `id` is the number n of the displayed id "An". */
  datatype Alarm = Alarm(id: nat, title: string, severity: Severity, detail: string, remoteFix: bool, acked: bool)

  /** The alarms whose acknowledged flag is `acked`, in list order. */
  function Select(alarms: seq<Alarm>, acked: bool): (r: seq<Alarm>)
    ensures |r| <= |alarms|
  {
    if alarms == [] then []
    else (if alarms[0].acked == acked then [alarms[0]] else []) + Select(alarms[1..], acked)
  }

  /** Selecting keeps exactly the alarms with that flag. */
  lemma {:induction false} SelectMembers(alarms: seq<Alarm>, acked: bool)
    ensures forall a :: a in Select(alarms, acked) <==> a in alarms && a.acked == acked
  {
    if alarms != [] {
      SelectMembers(alarms[1..], acked);
      assert alarms == [alarms[0]] + alarms[1..];
    }
  }

  /** Selecting distributes over concatenation, so it keeps the list order. */
  lemma {:induction false} SelectAppend(a: seq<Alarm>, b: seq<Alarm>, acked: bool)
    ensures Select(a + b, acked) == Select(a, acked) + Select(b, acked)
  {
    if a == [] {
      assert a + b == b;
    } else {
      var head := if a[0].acked == acked then [a[0]] else [];
      assert (a + b)[0] == a[0];
      assert (a + b)[1..] == a[1..] + b;
      SelectAppend(a[1..], b, acked);
      calc {
        Select(a + b, acked);
        head + Select(a[1..] + b, acked);
        head + (Select(a[1..], acked) + Select(b, acked));
        (head + Select(a[1..], acked)) + Select(b, acked);
      }
    }
  }

  /** Selecting twice with the same flag selects nothing more. */
  lemma {:induction false} SelectIdempotent(a: seq<Alarm>, acked: bool)
    ensures Select(Select(a, acked), acked) == Select(a, acked)
  {
    if a != [] {
      var head := if a[0].acked == acked then [a[0]] else [];
      SelectAppend(head, Select(a[1..], acked), acked);
      SelectIdempotent(a[1..], acked);
    }
  }

  predicate HasActive(alarms: seq<Alarm>)
  {
    exists i :: 0 <= i < |alarms| && !alarms[i].acked
  }

  /** An alarm is active exactly when the summary's active list is non-empty. */
  lemma HasActiveIffSelected(alarms: seq<Alarm>)
    ensures HasActive(alarms) <==> Select(alarms, false) != []
  {
    SelectMembers(alarms, false);
    if HasActive(alarms) {
      var i :| 0 <= i < |alarms| && !alarms[i].acked;
      assert alarms[i] in Select(alarms, false);
    }
  }

  /** The alarm_summary output: active alarms and acknowledged alarms. The
      source copies only the id, title, severity and time of each alarm;
      the model keeps the whole record, of which those are a projection. */
  datatype AlarmSummary = AlarmSummary(active: seq<Alarm>, acked: seq<Alarm>)

  /** Every alarm is listed exactly once: active or acknowledged. */
  function Summarize(alarms: seq<Alarm>): (r: AlarmSummary)
    ensures |r.active| + |r.acked| == |alarms|
    ensures forall a :: a in r.active <==> a in alarms && !a.acked
    ensures forall a :: a in r.acked <==> a in alarms && a.acked
  {
    SelectPartition(alarms);
    SelectMembers(alarms, false);
    SelectMembers(alarms, true);
    AlarmSummary(Select(alarms, false), Select(alarms, true))
  }

  lemma {:induction false} SelectPartition(alarms: seq<Alarm>)
    ensures |Select(alarms, false)| + |Select(alarms, true)| == |alarms|
  {
    if alarms != [] {
      SelectPartition(alarms[1..]);
    }
  }

  /** The index of the first alarm with this id (Array.prototype.find). */
  function FindAlarm(alarms: seq<Alarm>, id: nat): (r: Option<nat>)
    ensures r.Some? ==> r.value < |alarms| && alarms[r.value].id == id
    ensures r.Some? ==> forall j :: 0 <= j < r.value ==> alarms[j].id != id
    ensures r.None? ==> forall j :: 0 <= j < |alarms| ==> alarms[j].id != id
  {
    if alarms == [] then None
    else if alarms[0].id == id then Some(0)
    else match FindAlarm(alarms[1..], id)
      case None => None
      case Some(k) => Some(k + 1)
  }

  /** Alarm ids grow along the list (so they are unique). */
  predicate IdsIncreasing(alarms: seq<Alarm>)
  {
    forall i, j :: 0 <= i < j < |alarms| ==> alarms[i].id < alarms[j].id
  }

  /** Every id was issued before the sequence counter reached `bound`. */
  predicate IdsBelow(alarms: seq<Alarm>, bound: nat)
  {
    forall i :: 0 <= i < |alarms| ==> alarms[i].id < bound
  }

  lemma {:induction false} SelectKeepsIds(alarms: seq<Alarm>, acked: bool, bound: nat)
    requires IdsIncreasing(alarms) && IdsBelow(alarms, bound)
    ensures IdsIncreasing(Select(alarms, acked)) && IdsBelow(Select(alarms, acked), bound)
  {
    if alarms != [] {
      var rest := alarms[1..];
      TailKeepsIds(alarms, bound);
      SelectKeepsIds(rest, acked, bound);
      SelectedAboveHead(alarms, acked);
      var s := Select(rest, acked);
      if alarms[0].acked == acked {
        assert Select(alarms, acked) == [alarms[0]] + s;
        IncreasingCons(alarms[0], s);
      } else {
        assert Select(alarms, acked) == s;
      }
    }
  }

  lemma TailKeepsIds(alarms: seq<Alarm>, bound: nat)
    requires alarms != [] && IdsIncreasing(alarms) && IdsBelow(alarms, bound)
    ensures IdsIncreasing(alarms[1..]) && IdsBelow(alarms[1..], bound)
  {
    var rest := alarms[1..];
    forall i, j | 0 <= i < j < |rest| ensures rest[i].id < rest[j].id {
      assert rest[i] == alarms[i + 1] && rest[j] == alarms[j + 1];
    }
  }

  lemma SelectedAboveHead(alarms: seq<Alarm>, acked: bool)
    requires alarms != [] && IdsIncreasing(alarms)
    ensures forall k :: 0 <= k < |Select(alarms[1..], acked)| ==> alarms[0].id < Select(alarms[1..], acked)[k].id
  {
    var rest := alarms[1..];
    SelectMembers(rest, acked);
    var s := Select(rest, acked);
    forall k | 0 <= k < |s| ensures alarms[0].id < s[k].id {
      assert s[k] in rest;
      var j :| 0 <= j < |rest| && rest[j] == s[k];
      assert alarms[j + 1] == s[k];
    }
  }

  /** A new alarm numbered by the counter keeps the ids increasing and below the next counter. */
  lemma AppendKeepsIds(alarms: seq<Alarm>, a: Alarm)
    requires IdsIncreasing(alarms) && IdsBelow(alarms, a.id)
    ensures IdsIncreasing(alarms + [a]) && IdsBelow(alarms + [a], a.id + 1)
    ensures forall b :: b in alarms ==> b.id != a.id
  {
  }

  /** Acknowledging an alarm leaves every id where it was. */
  lemma AckKeepsIds(alarms: seq<Alarm>, i: nat, bound: nat)
    requires i < |alarms| && IdsIncreasing(alarms) && IdsBelow(alarms, bound)
    ensures IdsIncreasing(alarms[i := alarms[i].(acked := true)])
    ensures IdsBelow(alarms[i := alarms[i].(acked := true)], bound)
  {
    var acked := alarms[i := alarms[i].(acked := true)];
    assert forall j :: 0 <= j < |acked| ==> acked[j].id == alarms[j].id;
  }

  lemma IncreasingCons(a: Alarm, s: seq<Alarm>)
    requires IdsIncreasing(s) && forall k :: 0 <= k < |s| ==> a.id < s[k].id
    ensures IdsIncreasing([a] + s)
  {
    var t := [a] + s;
    forall i, j | 0 <= i < j < |t| ensures t[i].id < t[j].id {
      assert t[j] == s[j - 1];
      if i > 0 {
        assert t[i] == s[i - 1];
      }
    }
  }

  // ---------------------------------------------------------------------
  // Outputs of a run

  datatype Decision = Accept | Scrap | Hold

  /** The probe snapshot; its measured values are random draws and are left out. */
  datatype Metrology = Metrology(odWithinTol: bool, lenWithinTol: bool)

  /** The cycle report, holding the values at completion. */
  datatype CycleReport = CycleReport(
    job: JobKey,
    cycleSec: nat,
    feedOv: int,
    spindleOv: int,
    offsetX: int,
    offsetZ: int,
    overrideArmed: bool)

  /** The "(kind)" tag of a console line: INFO, WARN or ALARM. */
  datatype LogKind = InfoLine | WarnLine | AlarmLine

  /** What a console line reports. */
  datatype Event =
    | Initialized
    | JobLoaded(name: string)
    | EvidenceReset
    | BlockedChecklist
    | BlockedEstop
    | OverrideArmed
    | OverrideRejected
    | CycleStarted
    | CannotStart(current: PanelState)
    | CyclePaused
    | PauseIgnored(current: PanelState)
    | ResumeBlocked
    | CycleResumed
    | ResumeIgnored(current: PanelState)
    | EstopActivated
    | EstopCleared
    | AlarmRaised(title: string, severity: Severity)
    | AlarmAcked(id: nat, title: string)
    | AlarmsCleared
    | FeedSet(percent: int)
    | SpindleSet(percent: int)
    | OffsetBlockedHard
    | OffsetBlockedSoft
    | OffsetsApplied(x: int, z: int)
    | CycleComplete(decision: Decision)
    | ExportBlocked
    | Exported

  datatype LogEntry = LogEntry(kind: LogKind, event: Event)

  /** The outputs accumulator: four optional records and the operator log. */
  datatype Outputs = Outputs(
    cycleReport: Option<CycleReport>,
    partResult: Option<Decision>,
    metrology: Option<Metrology>,
    alarmSummary: Option<AlarmSummary>,
    operatorLog: seq<LogEntry>)

  /** A required output is there: non-null, or for the operator log non-empty. */
  predicate Present(o: Outputs, k: OutputKey)
  {
    match k
    case CycleReportKey => o.cycleReport.Some?
    case PartResultKey => o.partResult.Some?
    case MetrologyKey => o.metrology.Some?
    case AlarmSummaryKey => o.alarmSummary.Some?
    case OperatorLogKey => |o.operatorLog| > 0
  }

  predicate OutputsComplete(o: Outputs, required: seq<OutputKey>)
  {
    forall i :: 0 <= i < |required| ==> Present(o, required[i])
  }

  /** For every preset the outputs are complete exactly when the four records
      are set and the operator log is not empty. */
  lemma OutputsCompleteForJob(key: JobKey, o: Outputs)
    ensures OutputsComplete(o, JobOf(key).outputsRequired) <==>
              o.cycleReport.Some? && o.partResult.Some? && o.metrology.Some?
              && o.alarmSummary.Some? && |o.operatorLog| > 0
  {
    var req := JobOf(key).outputsRequired;
    if OutputsComplete(o, req) {
      assert Present(o, req[0]) && Present(o, req[1]) && Present(o, req[2]);
      assert Present(o, req[3]) && Present(o, req[4]);
    }
  }

  /** Appends one console line; logging also refreshes the alarm summary. */
  function Logged(o: Outputs, alarms: seq<Alarm>, kind: LogKind, e: Event): (r: Outputs)
    ensures r.operatorLog == o.operatorLog + [LogEntry(kind, e)]
    ensures r.alarmSummary == Some(Summarize(alarms))
    ensures r.cycleReport == o.cycleReport && r.partResult == o.partResult && r.metrology == o.metrology
  {
    o.(operatorLog := o.operatorLog + [LogEntry(kind, e)], alarmSummary := Some(Summarize(alarms)))
  }

  // ---------------------------------------------------------------------
  // Cycle progress

  lemma DivFloor(a: nat, b: nat)
    requires 0 < b
    ensures (a / b) * b <= a < (a / b + 1) * b
  {
    var q, m := a / b, a % b;
    assert a == q * b + m && 0 <= m < b;
    assert (q + 1) * b == q * b + b;
  }

  lemma MulMono(a: int, b: int, c: nat)
    requires a <= b
    ensures a * c <= b * c
  {
    assert b * c - a * c == (b - a) * c;
  }

  /** The operation shown for `done` seconds into a `total`-second cycle of
      `opCount` operations: floor(done / total * opCount), capped at the last. */
  function OpIndex(done: nat, total: nat, opCount: nat): (r: nat)
    requires 0 < total && 0 < opCount
    ensures r < opCount
    ensures r * total <= done * opCount
    ensures r == opCount - 1 || done * opCount < (r + 1) * total
    ensures total <= done ==> r == opCount - 1
  {
    var q := (done * opCount) / total;
    DivFloor(done * opCount, total);
    var r := if q < opCount - 1 then q else opCount - 1;
    MulMono(r, q, total);
    assert total <= done ==> r == opCount - 1 by {
      if total <= done && q < opCount - 1 {
        MulMono(total, done, opCount);
        MulMono(q + 1, opCount, total);
        assert false;
      }
    }
    r
  }

  /** The operation index never moves backwards as the cycle progresses. */
  lemma {:induction false} OpIndexMonotone(d1: nat, d2: nat, total: nat, opCount: nat)
    requires 0 < total && 0 < opCount && d1 <= d2
    ensures OpIndex(d1, total, opCount) <= OpIndex(d2, total, opCount)
  {
    var r1, r2 := OpIndex(d1, total, opCount), OpIndex(d2, total, opCount);
    if r2 < r1 {
      MulMono(d1, d2, opCount);
      MulMono(r2 + 1, r1, total);
      assert false;
    }
  }

  // ---------------------------------------------------------------------
  // History buffer

  /** The buffer after pushing `v` and then shifting once if it is longer than `maxN`. */
  function Window<T>(s: seq<T>, v: T, maxN: nat): (r: seq<T>)
    ensures |r| == if |s| + 1 > maxN then |s| else |s| + 1
    ensures r == (s + [v])[|s| + 1 - |r|..]
    ensures |s| <= maxN ==> |r| <= maxN
    ensures r != [] ==> r[|r| - 1] == v
    ensures r == [] <==> maxN == 0 && s == []
  {
    var pushed := s + [v];
    if |pushed| > maxN then pushed[1..] else pushed
  }
}
