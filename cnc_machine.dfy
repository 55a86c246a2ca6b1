/** The operator panel's mutable state (the source's module-level SIM and
    machine objects, and its current job) and the handlers that change it.
    Evidence inputs are read from the page at the moment of each action, so
    the gated handlers take them as a parameter. */
module CncMachine {

  import opened Options
  import opened CncPanel

  /** Every field of the panel except the outputs accumulator. Each handler
      states its effect as an update of this record, so whatever it does not
      name is unchanged. */
  datatype Panel = Panel(
    state: PanelState,
    estop: bool,
    jobKey: JobKey,
    job: Job,
    feedOv: int,
    spindleOv: int,
    offsetX: int,
    offsetZ: int,
    overrideArmed: bool,
    opIndex: nat,
    remainingSec: int,
    ok: nat,
    scrap: nat,
    hold: nat,
    alarms: seq<Alarm>,
    alarmSeq: nat,
    startEnabled: bool,    // the Start button is not disabled
    adjustEnabled: bool)   // the feed, spindle and apply-offsets buttons are not disabled

  ghost predicate Consistent(p: Panel, o: Outputs)
  {
    && FeedMin <= p.feedOv <= FeedMax
    && SpindleMin <= p.spindleOv <= SpindleMax
    && Abs(p.offsetX) <= OffsetHardLimitUm && Abs(p.offsetZ) <= OffsetHardLimitUm
    && 0 < p.job.cycleSec && p.opIndex < |p.job.ops|
    && 1 <= p.alarmSeq
    && IdsIncreasing(p.alarms) && IdsBelow(p.alarms, p.alarmSeq)
    && o.alarmSummary == Some(Summarize(p.alarms))
  }

  /** The button flags renderChecklist sets from the panel and the evidence
      on the page; nothing else is touched. */
  function Render(p: Panel, ev: Evidence): Panel
  {
    var ok := ChecklistStatus(p.job, ev).ok;
    p.(startEnabled := StartAllowed(ok, p.estop, p.state),
       adjustEnabled := AdjustAllowed(ok, p.estop, p.state))
  }

  /** A finished part: IDLE, and one more on the decision's counter. */
  function Finished(p: Panel, decision: Decision): Panel
  {
    p.(state := Idle,
       ok := p.ok + (if decision == Accept then 1 else 0),
       scrap := p.scrap + (if decision == Scrap then 1 else 0),
       hold := p.hold + (if decision == Hold then 1 else 0))
  }

  /** A button enabled by a render lets its handler past the checklist and
      e-stop guard, as long as the evidence and the panel are as rendered. */
  lemma RenderedButtonsPassGate(p: Panel, ev: Evidence)
    ensures Render(p, ev).startEnabled ==> Render(p, ev).adjustEnabled
    ensures Render(p, ev).adjustEnabled ==> GateBlock(ChecklistStatus(p.job, ev).ok, p.estop).None?
    ensures p.state == Alarmed || p.state == Offline ==>
              !Render(p, ev).startEnabled && !Render(p, ev).adjustEnabled
  {
    EnabledButtonsPassGate(ChecklistStatus(p.job, ev).ok, p.estop, p.state);
  }

  class Machine {
    var state: PanelState
    var estop: bool
    var jobKey: JobKey
    var job: Job
    var feedOv: int        // percent
    var spindleOv: int     // percent
    var offsetX: int       // micrometres
    var offsetZ: int       // micrometres
    var overrideArmed: bool
    var opIndex: nat
    var remainingSec: int
    var ok: nat
    var scrap: nat
    var hold: nat
    var alarms: seq<Alarm>
    var alarmSeq: nat
    var startEnabled: bool
    var adjustEnabled: bool
    var outputs: Outputs

    function Snapshot(): Panel
      reads this
    {
      Panel(state, estop, jobKey, job, feedOv, spindleOv, offsetX, offsetZ, overrideArmed,
            opIndex, remainingSec, ok, scrap, hold, alarms, alarmSeq, startEnabled, adjustEnabled)
    }

    /** Why a guarded action would be refused now (checklist, then e-stop). */
    function Block(ev: Evidence): Option<Event>
      reads this
    {
      GateBlock(ChecklistStatus(job, ev).ok, estop)
    }

    /** The guardrails hold, alarm ids are unique and below the sequence
        counter, and the alarm summary output reflects the alarm list. */
    ghost predicate Valid()
      reads this
    {
      Consistent(Snapshot(), outputs)
    }

    /** The loaded job record is the preset its key names (both are set
        together by LoadJob, and no other handler touches either). */
    ghost predicate JobMatchesKey()
      reads this
    {
      job == JobOf(jobKey)
    }

    /** The machine object as declared, after init(): one log line, then the
        default job loaded and the buttons rendered for the evidence on the page. */
    constructor (ev: Evidence)
      ensures Valid() && JobMatchesKey()
      ensures Snapshot() == Render(Panel(Idle, false, LatheShaft, JobOf(LatheShaft), 100, 100, 0, 0, false,
                                         0, 0, 0, 0, 0, [], 1, false, false), ev)
      ensures outputs == Outputs(None, None, None, Some(Summarize([])),
                                 [LogEntry(InfoLine, Initialized), LogEntry(InfoLine, JobLoaded(JobOf(LatheShaft).name))])
    {
      state, estop, jobKey, job := Idle, false, LatheShaft, JobOf(LatheShaft);
      feedOv, spindleOv := 100, 100;
      offsetX, offsetZ, overrideArmed := 0, 0, false;
      opIndex, remainingSec := 0, 0;
      ok, scrap, hold := 0, 0, 0;
      alarms, alarmSeq := [], 1;
      startEnabled, adjustEnabled := false, false;
      outputs := Outputs(None, None, None, None, []);
      new;
      Log(InfoLine, Initialized);
      LoadJob(LatheShaft, ev);
    }

    /** The part of refreshOutputs that the model keeps: the alarm summary. */
    method RefreshOutputs()
      modifies this`outputs
      ensures Snapshot() == old(Snapshot())
      ensures outputs == old(outputs).(alarmSummary := Some(Summarize(alarms)))
    {
      outputs := outputs.(alarmSummary := Some(Summarize(alarms)));
    }

    /** Appends one entry to the operator log, then refreshes the outputs.
        A handler's own refreshOutputs call after logging changes nothing
        further, so the handlers below only log. */
    method Log(kind: LogKind, e: Event)
      modifies this`outputs
      ensures Snapshot() == old(Snapshot())
      ensures outputs == Logged(old(outputs), alarms, kind, e)
    {
      outputs := outputs.(operatorLog := outputs.operatorLog + [LogEntry(kind, e)]);
      RefreshOutputs();
    }

    /** renderChecklist's button flags, for the evidence now on the page. It
        runs at the start of every frame, on every evidence input, and inside
        the handlers below that the source has call it. */
    method RenderChecklist(ev: Evidence)
      requires Valid()
      modifies this`startEnabled, this`adjustEnabled
      ensures Valid()
      ensures Snapshot() == Render(old(Snapshot()), ev)
    {
      var checklistOk := ChecklistStatus(job, ev).ok;
      startEnabled := StartAllowed(checklistOk, estop, state);
      adjustEnabled := AdjustAllowed(checklistOk, estop, state);
    }

    /** Passes only with a complete checklist and a clear e-stop; a refusal is logged. */
    method RequireChecklistOk(ev: Evidence) returns (pass: bool)
      modifies this`outputs
      ensures Snapshot() == old(Snapshot())
      ensures pass <==> Block(ev).None?
      ensures pass ==> outputs == old(outputs)
      ensures !pass ==> outputs == Logged(old(outputs), alarms, WarnLine, Block(ev).value)
    {
      var checklist := ChecklistStatus(job, ev);
      if !checklist.ok {
        Log(WarnLine, BlockedChecklist);
        return false;
      }
      if estop {
        Log(WarnLine, BlockedEstop);
        return false;
      }
      return true;
    }

    // -------------------------------------------------------------------
    // Job and checklist

    /** Selects a job: progress and the four output records are reset, the
        operator log is kept, and the buttons are rendered for the new job's
        checklist. The panel state is not touched. */
    method LoadJob(key: JobKey, ev: Evidence)
      requires outputs.alarmSummary == Some(Summarize(alarms))
      requires FeedMin <= feedOv <= FeedMax && SpindleMin <= spindleOv <= SpindleMax
      requires Abs(offsetX) <= OffsetHardLimitUm && Abs(offsetZ) <= OffsetHardLimitUm
      requires 1 <= alarmSeq && IdsIncreasing(alarms) && IdsBelow(alarms, alarmSeq)
      modifies this
      ensures Valid() && JobMatchesKey()
      ensures Snapshot() == Render(old(Snapshot()).(jobKey := key, job := JobOf(key), opIndex := 0, remainingSec := 0), ev)
      ensures outputs == Logged(old(outputs).(cycleReport := None, partResult := None, metrology := None, alarmSummary := None),
                                alarms, InfoLine, JobLoaded(JobOf(key).name))
    {
      SelectJob(key);
      outputs := outputs.(cycleReport := None, partResult := None, metrology := None, alarmSummary := None);
      Log(InfoLine, JobLoaded(job.name));
      RenderChecklist(ev);
    }

    /** The panel half of loadJob: the preset and its first operation. */
    method SelectJob(key: JobKey)
      modifies this`jobKey, this`job, this`opIndex, this`remainingSec
      ensures Snapshot() == old(Snapshot()).(jobKey := key, job := JobOf(key), opIndex := 0, remainingSec := 0)
    {
      jobKey, job := key, JobOf(key);
      opIndex, remainingSec := 0, 0;
    }

    /** The checklist reset button: every evidence input is emptied, which
        leaves the checklist incomplete and disables the gated buttons. */
    method ResetChecklist() returns (ev: Evidence)
      requires Valid()
      modifies this
      ensures Valid()
      ensures ev == BlankEvidence && !ChecklistStatus(job, ev).ok
      ensures Snapshot() == old(Snapshot()).(startEnabled := false, adjustEnabled := false)
      ensures outputs == Logged(old(outputs), alarms, InfoLine, EvidenceReset)
    {
      ev := BlankEvidence;
      Log(InfoLine, EvidenceReset);
      RenderChecklist(ev);
    }

    /** Arms the override exactly when the trimmed key is the supervisor key. */
    method ArmOverride(keyText: string)
      requires Valid()
      modifies this
      ensures Valid()
      ensures overrideArmed <==> Trim(keyText) == OverrideKey
      ensures Snapshot() == old(Snapshot()).(overrideArmed := overrideArmed)
      ensures outputs == Logged(old(outputs), alarms, WarnLine,
                                if overrideArmed then OverrideArmed else OverrideRejected)
    {
      var key := Trim(keyText);
      SetOverride(key == OverrideKey);
    }

    /** The override flag after the key has been compared, with its log line. */
    method SetOverride(armed: bool)
      requires Valid()
      modifies this
      ensures Valid()
      ensures Snapshot() == old(Snapshot()).(overrideArmed := armed)
      ensures outputs == Logged(old(outputs), alarms, WarnLine,
                                if armed then OverrideArmed else OverrideRejected)
    {
      overrideArmed := armed;
      if armed {
        Log(WarnLine, OverrideArmed);
      } else {
        Log(WarnLine, OverrideRejected);
      }
    }

    // -------------------------------------------------------------------
    // Cycle control

    /** The Start button: a press while it is disabled does nothing; the
        handler starts a cycle only from IDLE with the gate passed. */
    method CycleStart(ev: Evidence)
      requires Valid()
      modifies this
      ensures Valid()
      ensures !old(startEnabled) ==> Snapshot() == old(Snapshot()) && outputs == old(outputs)
      ensures old(startEnabled) && old(Block(ev)).Some? ==>
                Snapshot() == old(Snapshot())
                && outputs == Logged(old(outputs), alarms, WarnLine, old(Block(ev)).value)
      ensures old(startEnabled) && old(Block(ev)).None? && old(state) != Idle ==>
                Snapshot() == old(Snapshot())
                && outputs == Logged(old(outputs), alarms, WarnLine, CannotStart(old(state)))
      ensures old(startEnabled) && old(Block(ev)).None? && old(state) == Idle ==>
                Snapshot() == old(Snapshot()).(state := Running, opIndex := 0, remainingSec := job.cycleSec)
                && outputs == Logged(old(outputs).(cycleReport := None, partResult := None, metrology := None),
                                     alarms, InfoLine, CycleStarted)
    {
      if !startEnabled {
        return;
      }
      var pass := RequireChecklistOk(ev);
      if !pass {
        return;
      }
      if state != Idle {
        Log(WarnLine, CannotStart(state));
        return;
      }
      BeginCycle();
    }

    /** The accepted branch of cycleStart: the first operation of the
        current job with its full cycle time, and the part outputs cleared. */
    method BeginCycle()
      requires Valid()
      modifies this
      ensures Valid()
      ensures Snapshot() == old(Snapshot()).(state := Running, opIndex := 0, remainingSec := job.cycleSec)
      ensures outputs == Logged(old(outputs).(cycleReport := None, partResult := None, metrology := None),
                                alarms, InfoLine, CycleStarted)
    {
      StartRun();
      outputs := outputs.(cycleReport := None, partResult := None, metrology := None);
      Log(InfoLine, CycleStarted);
    }

    /** The panel half of BeginCycle. */
    method StartRun()
      modifies this`state, this`opIndex, this`remainingSec
      ensures Snapshot() == old(Snapshot()).(state := Running, opIndex := 0, remainingSec := job.cycleSec)
    {
      state := Running;
      opIndex := 0;
      remainingSec := job.cycleSec;
    }

    /** Moves RUNNING to PAUSED; any other state is left as it is. */
    method Pause(ev: Evidence)
      requires Valid()
      modifies this
      ensures Valid()
      ensures old(Block(ev)).Some? ==>
                Snapshot() == old(Snapshot())
                && outputs == Logged(old(outputs), alarms, WarnLine, old(Block(ev)).value)
      ensures old(Block(ev)).None? && old(state) == Running ==>
                Snapshot() == old(Snapshot()).(state := Paused)
                && outputs == Logged(old(outputs), alarms, InfoLine, CyclePaused)
      ensures old(Block(ev)).None? && old(state) != Running ==>
                Snapshot() == old(Snapshot())
                && outputs == Logged(old(outputs), alarms, WarnLine, PauseIgnored(old(state)))
    {
      var pass := RequireChecklistOk(ev);
      if pass {
        PauseAfterGate();
      }
    }

    /** The part of Pause after the checklist gate has passed. */
    method PauseAfterGate()
      requires Valid()
      modifies this
      ensures Valid()
      ensures old(state) == Running ==>
                Snapshot() == old(Snapshot()).(state := Paused)
                && outputs == Logged(old(outputs), alarms, InfoLine, CyclePaused)
      ensures old(state) != Running ==>
                Snapshot() == old(Snapshot())
                && outputs == Logged(old(outputs), alarms, WarnLine, PauseIgnored(old(state)))
    {
      if state == Running {
        state := Paused;
        Log(InfoLine, CyclePaused);
      } else {
        Log(WarnLine, PauseIgnored(state));
      }
    }

    /** Moves PAUSED to RUNNING, unless an alarm is still unacknowledged. */
    method Resume(ev: Evidence)
      requires Valid()
      modifies this
      ensures Valid()
      ensures old(Block(ev)).Some? ==>
                Snapshot() == old(Snapshot())
                && outputs == Logged(old(outputs), alarms, WarnLine, old(Block(ev)).value)
      ensures old(Block(ev)).None? && old(state) == Paused && HasActive(old(alarms)) ==>
                Snapshot() == old(Snapshot())
                && outputs == Logged(old(outputs), alarms, WarnLine, ResumeBlocked)
      ensures old(Block(ev)).None? && old(state) == Paused && !HasActive(old(alarms)) ==>
                Snapshot() == old(Snapshot()).(state := Running)
                && outputs == Logged(old(outputs), alarms, InfoLine, CycleResumed)
      ensures old(Block(ev)).None? && old(state) != Paused ==>
                Snapshot() == old(Snapshot())
                && outputs == Logged(old(outputs), alarms, WarnLine, ResumeIgnored(old(state)))
    {
      var pass := RequireChecklistOk(ev);
      if pass {
        ResumeAfterGate();
      }
    }

    /** The part of Resume after the checklist gate has passed. */
    method ResumeAfterGate()
      requires Valid()
      modifies this
      ensures Valid()
      ensures old(state) == Paused && HasActive(old(alarms)) ==>
                Snapshot() == old(Snapshot())
                && outputs == Logged(old(outputs), alarms, WarnLine, ResumeBlocked)
      ensures old(state) == Paused && !HasActive(old(alarms)) ==>
                Snapshot() == old(Snapshot()).(state := Running)
                && outputs == Logged(old(outputs), alarms, InfoLine, CycleResumed)
      ensures old(state) != Paused ==>
                Snapshot() == old(Snapshot())
                && outputs == Logged(old(outputs), alarms, WarnLine, ResumeIgnored(old(state)))
    {
      if state == Paused {
        if HasActive(alarms) {
          Log(WarnLine, ResumeBlocked);
          return;
        }
        state := Running;
        Log(InfoLine, CycleResumed);
      } else {
        Log(WarnLine, ResumeIgnored(state));
      }
    }

    /** Latches the e-stop and takes the machine OFFLINE. */
    method Estop()
      requires Valid()
      modifies this
      ensures Valid()
      ensures Snapshot() == old(Snapshot()).(estop := true, state := Offline)
      ensures outputs == Logged(old(outputs), alarms, AlarmLine, EstopActivated)
    {
      estop := true;
      state := Offline;
      Log(AlarmLine, EstopActivated);
    }

    /** Releases the e-stop and returns the machine to IDLE. */
    method ClearEstop()
      requires Valid()
      modifies this
      ensures Valid()
      ensures Snapshot() == old(Snapshot()).(estop := false, state := Idle)
      ensures outputs == Logged(old(outputs), alarms, InfoLine, EstopCleared)
    {
      estop := false;
      state := Idle;
      Log(InfoLine, EstopCleared);
    }

    /** The e-stop button toggles between the two, then renders the buttons:
        all disabled while latched. */
    method PressEstop(ev: Evidence)
      requires Valid()
      modifies this
      ensures Valid()
      ensures estop == !old(estop)
      ensures state == if estop then Offline else Idle
      ensures Snapshot() == Render(old(Snapshot()).(estop := estop, state := state), ev)
      ensures estop ==> !startEnabled && !adjustEnabled
      ensures outputs == if estop then Logged(old(outputs), alarms, AlarmLine, EstopActivated)
                         else Logged(old(outputs), alarms, InfoLine, EstopCleared)
    {
      if !estop {
        Estop();
      } else {
        ClearEstop();
      }
      RenderChecklist(ev);
    }

    // -------------------------------------------------------------------
    // Guarded operator inputs

    /** The feed override buttons (a press while disabled does nothing): down 10 or up 5 percent, clamped to 60..115. */
    method AdjustFeed(ev: Evidence, up: bool)
      requires Valid()
      modifies this
      ensures Valid()
      ensures !old(adjustEnabled) ==> Snapshot() == old(Snapshot()) && outputs == old(outputs)
      ensures old(adjustEnabled) && old(Block(ev)).Some? ==>
                Snapshot() == old(Snapshot())
                && outputs == Logged(old(outputs), alarms, WarnLine, old(Block(ev)).value)
      ensures old(adjustEnabled) && old(Block(ev)).None? ==>
                Snapshot() == old(Snapshot()).(feedOv := Clamp(old(feedOv) + (if up then StepUp else -StepDown), FeedMin, FeedMax))
                && outputs == Logged(old(outputs), alarms, InfoLine, FeedSet(feedOv))
    {
      if !adjustEnabled {
        return;
      }
      var pass := RequireChecklistOk(ev);
      if pass {
        SetFeed(up);
      }
    }

    /** The part of AdjustFeed after the checklist gate has passed. */
    method SetFeed(up: bool)
      requires Valid()
      modifies this
      ensures Valid()
      ensures Snapshot() == old(Snapshot()).(feedOv := Clamp(old(feedOv) + (if up then StepUp else -StepDown), FeedMin, FeedMax))
      ensures outputs == Logged(old(outputs), alarms, InfoLine, FeedSet(feedOv))
    {
      feedOv := Clamp(feedOv + (if up then StepUp else -StepDown), FeedMin, FeedMax);
      Log(InfoLine, FeedSet(feedOv));
    }

    /** The spindle override buttons (a press while disabled does nothing): down 10 or up 5 percent, clamped to 70..110. */
    method AdjustSpindle(ev: Evidence, up: bool)
      requires Valid()
      modifies this
      ensures Valid()
      ensures !old(adjustEnabled) ==> Snapshot() == old(Snapshot()) && outputs == old(outputs)
      ensures old(adjustEnabled) && old(Block(ev)).Some? ==>
                Snapshot() == old(Snapshot())
                && outputs == Logged(old(outputs), alarms, WarnLine, old(Block(ev)).value)
      ensures old(adjustEnabled) && old(Block(ev)).None? ==>
                Snapshot() == old(Snapshot()).(spindleOv := Clamp(old(spindleOv) + (if up then StepUp else -StepDown), SpindleMin, SpindleMax))
                && outputs == Logged(old(outputs), alarms, InfoLine, SpindleSet(spindleOv))
    {
      if !adjustEnabled {
        return;
      }
      var pass := RequireChecklistOk(ev);
      if pass {
        SetSpindle(up);
      }
    }

    /** The part of AdjustSpindle after the checklist gate has passed. */
    method SetSpindle(up: bool)
      requires Valid()
      modifies this
      ensures Valid()
      ensures Snapshot() == old(Snapshot()).(spindleOv := Clamp(old(spindleOv) + (if up then StepUp else -StepDown), SpindleMin, SpindleMax))
      ensures outputs == Logged(old(outputs), alarms, InfoLine, SpindleSet(spindleOv))
    {
      spindleOv := Clamp(spindleOv + (if up then StepUp else -StepDown), SpindleMin, SpindleMax);
      Log(InfoLine, SpindleSet(spindleOv));
    }

    /** Applies the requested work offsets (already rounded to whole
        micrometres), when the button is enabled, unless the hard limit, or the soft limit without the
        override, blocks them; a blocked request leaves the offsets as they were. */
    method ApplyOffsets(ev: Evidence, x: int, z: int)
      requires Valid()
      modifies this
      ensures Valid()
      ensures !old(adjustEnabled) ==> Snapshot() == old(Snapshot()) && outputs == old(outputs)
      ensures old(adjustEnabled) && old(Block(ev)).Some? ==>
                Snapshot() == old(Snapshot())
                && outputs == Logged(old(outputs), alarms, WarnLine, old(Block(ev)).value)
      ensures old(adjustEnabled) && old(Block(ev)).None? && CheckOffsets(x, z, old(overrideArmed)) == BlockedHard ==>
                Snapshot() == old(Snapshot())
                && outputs == Logged(old(outputs), alarms, WarnLine, OffsetBlockedHard)
      ensures old(adjustEnabled) && old(Block(ev)).None? && CheckOffsets(x, z, old(overrideArmed)) == BlockedSoft ==>
                Snapshot() == old(Snapshot())
                && outputs == Logged(old(outputs), alarms, WarnLine, OffsetBlockedSoft)
      ensures old(adjustEnabled) && old(Block(ev)).None? && CheckOffsets(x, z, old(overrideArmed)).Accepted? ==>
                Snapshot() == old(Snapshot()).(offsetX := x, offsetZ := z)
                && outputs == Logged(old(outputs), alarms,
                                     if CheckOffsets(x, z, old(overrideArmed)).overSoft then WarnLine else InfoLine,
                                     OffsetsApplied(x, z))
    {
      if !adjustEnabled {
        return;
      }
      var pass := RequireChecklistOk(ev);
      if pass {
        ApplyVerdict(x, z);
      }
    }

    /** The part of ApplyOffsets after the checklist gate has passed. */
    method ApplyVerdict(x: int, z: int)
      requires Valid()
      modifies this
      ensures Valid()
      ensures CheckOffsets(x, z, old(overrideArmed)) == BlockedHard ==>
                Snapshot() == old(Snapshot())
                && outputs == Logged(old(outputs), alarms, WarnLine, OffsetBlockedHard)
      ensures CheckOffsets(x, z, old(overrideArmed)) == BlockedSoft ==>
                Snapshot() == old(Snapshot())
                && outputs == Logged(old(outputs), alarms, WarnLine, OffsetBlockedSoft)
      ensures CheckOffsets(x, z, old(overrideArmed)).Accepted? ==>
                Snapshot() == old(Snapshot()).(offsetX := x, offsetZ := z)
                && outputs == Logged(old(outputs), alarms,
                                     if CheckOffsets(x, z, old(overrideArmed)).overSoft then WarnLine else InfoLine,
                                     OffsetsApplied(x, z))
    {
      var verdict := CheckOffsets(x, z, overrideArmed);
      if verdict == BlockedHard {
        Log(WarnLine, OffsetBlockedHard);
        return;
      }
      if verdict == BlockedSoft {
        Log(WarnLine, OffsetBlockedSoft);
        return;
      }
      offsetX, offsetZ := x, z;
      Log(if verdict.overSoft then WarnLine else InfoLine, OffsetsApplied(x, z));
    }

    // -------------------------------------------------------------------
    // Alarms

    /** Appends a new unacknowledged alarm numbered by the sequence counter,
        advances the counter and puts the panel in ALARM. */
    method PushAlarm(title: string, severity: Severity, detail: string, remoteFix: bool)
      requires Valid()
      modifies this
      ensures Valid()
      ensures Snapshot() == old(Snapshot()).(
                alarms := old(alarms) + [Alarm(old(alarmSeq), title, severity, detail, remoteFix, false)],
                alarmSeq := old(alarmSeq) + 1,
                state := Alarmed)
      ensures forall a :: a in old(alarms) ==> a.id != old(alarmSeq)
      ensures outputs == Logged(old(outputs), alarms, AlarmLine, AlarmRaised(title, severity))
    {
      var a := Alarm(alarmSeq, title, severity, detail, remoteFix, false);
      AppendKeepsIds(alarms, a);
      alarmSeq := alarmSeq + 1;
      alarms := alarms + [a];
      state := Alarmed;
      Log(AlarmLine, AlarmRaised(title, severity));
    }

    /** Acknowledges the alarm with this id; an unknown id changes nothing.
        Once no alarm is active the panel goes to PAUSED, whatever it was. */
    method AckAlarm(id: nat)
      requires Valid()
      modifies this
      ensures Valid()
      ensures FindAlarm(old(alarms), id).None? ==>
                Snapshot() == old(Snapshot()) && outputs == old(outputs)
      ensures FindAlarm(old(alarms), id).Some? ==>
                var i := FindAlarm(old(alarms), id).value;
                var acked := old(alarms)[i := old(alarms)[i].(acked := true)];
                Snapshot() == old(Snapshot()).(alarms := acked, state := if HasActive(acked) then old(state) else Paused)
                && outputs == Logged(old(outputs), acked, InfoLine, AlarmAcked(id, old(alarms)[i].title))
    {
      var found := FindAlarm(alarms, id);
      if found.None? {
        return;
      }
      var i := found.value;
      AckKeepsIds(alarms, i, alarmSeq);
      alarms := alarms[i := alarms[i].(acked := true)];
      Log(InfoLine, AlarmAcked(alarms[i].id, alarms[i].title));
      if !HasActive(alarms) {
        state := Paused;
      }
    }

    /** Drops the acknowledged alarms, keeping the active ones in order. */
    method ClearAcknowledged()
      requires Valid()
      modifies this
      ensures Valid()
      ensures Snapshot() == old(Snapshot()).(alarms := Select(old(alarms), false))
      ensures outputs == Logged(old(outputs), alarms, InfoLine, AlarmsCleared)
    {
      SelectKeepsIds(alarms, false, alarmSeq);
      alarms := Select(alarms, false);
      Log(InfoLine, AlarmsCleared);
    }

    // -------------------------------------------------------------------
    // Cycle progression

    /** One frame of cycle progress while RUNNING: count down, move the
        operation index, and at zero finish the part. The accept/scrap/hold
        decision and the metrology snapshot are random draws in the source
        and are inputs here; a finished part re-renders the buttons for the
        evidence on the page. */
    method UpdateCycle(dt: nat, decision: Decision, metrology: Metrology, ev: Evidence)
      requires Valid()
      modifies this
      ensures Valid()
      ensures old(state) != Running ==> Snapshot() == old(Snapshot()) && outputs == old(outputs)
      ensures old(state) == Running ==>
                var total := job.cycleSec;
                var rem := old(remainingSec) - dt;
                var op := OpIndex(if total - rem < 0 then 0 else total - rem, total, |job.ops|);
                if rem > 0 then
                  Snapshot() == old(Snapshot()).(remainingSec := rem, opIndex := op) && outputs == old(outputs)
                else
                  Snapshot() == Render(Finished(old(Snapshot()).(remainingSec := rem, opIndex := op), decision), ev)
                  && outputs == Logged(old(outputs).(
                                         metrology := Some(metrology),
                                         partResult := Some(decision),
                                         cycleReport := Some(CycleReport(jobKey, total, feedOv, spindleOv,
                                                                         offsetX, offsetZ, overrideArmed))),
                                       alarms, InfoLine, CycleComplete(decision))
      ensures ok + scrap + hold == old(ok + scrap + hold) + (if old(state) == Running && old(remainingSec) - dt <= 0 then 1 else 0)
    {
      if state == Running {
        RunFrame(dt, decision, metrology, ev);
      }
    }

    /** A frame of UpdateCycle while RUNNING. */
    method RunFrame(dt: nat, decision: Decision, metrology: Metrology, ev: Evidence)
      requires Valid() && state == Running
      modifies this
      ensures Valid()
      ensures var total := job.cycleSec;
                var rem := old(remainingSec) - dt;
                var op := OpIndex(if total - rem < 0 then 0 else total - rem, total, |job.ops|);
                if rem > 0 then
                  Snapshot() == old(Snapshot()).(remainingSec := rem, opIndex := op) && outputs == old(outputs)
                else
                  Snapshot() == Render(Finished(old(Snapshot()).(remainingSec := rem, opIndex := op), decision), ev)
                  && outputs == Logged(old(outputs).(
                                         metrology := Some(metrology),
                                         partResult := Some(decision),
                                         cycleReport := Some(CycleReport(jobKey, total, feedOv, spindleOv,
                                                                         offsetX, offsetZ, overrideArmed))),
                                       alarms, InfoLine, CycleComplete(decision))
      ensures ok + scrap + hold == old(ok + scrap + hold) + (if old(remainingSec) - dt <= 0 then 1 else 0)
    {
      Advance(dt);
      if remainingSec <= 0 {
        FinishPart(decision, metrology, ev);
      }
    }

    /** The countdown and the operation index of one frame. */
    method Advance(dt: nat)
      requires Valid()
      modifies this
      ensures Valid()
      ensures Snapshot() == old(Snapshot()).(
                remainingSec := old(remainingSec) - dt,
                opIndex := OpIndex(if job.cycleSec - remainingSec < 0 then 0 else job.cycleSec - remainingSec,
                                   job.cycleSec, |job.ops|))
      ensures outputs == old(outputs)
    {
      remainingSec := remainingSec - dt;
      var total := job.cycleSec;
      var done: nat := if total - remainingSec < 0 then 0 else total - remainingSec;
      opIndex := OpIndex(done, total, |job.ops|);
    }

    /** The end of a cycle: back to IDLE, one counter for the decision, the
        part's outputs recorded, and the buttons rendered. */
    method FinishPart(decision: Decision, metrology: Metrology, ev: Evidence)
      requires Valid()
      modifies this
      ensures Valid()
      ensures Snapshot() == Render(Finished(old(Snapshot()), decision), ev)
      ensures outputs == Logged(old(outputs).(
                                  metrology := Some(metrology),
                                  partResult := Some(decision),
                                  cycleReport := Some(CycleReport(jobKey, job.cycleSec, feedOv, spindleOv,
                                                                  offsetX, offsetZ, overrideArmed))),
                                alarms, InfoLine, CycleComplete(decision))
    {
      CountPart(decision);
      outputs := outputs.(
        metrology := Some(metrology),
        partResult := Some(decision),
        cycleReport := Some(CycleReport(jobKey, job.cycleSec, feedOv, spindleOv, offsetX, offsetZ, overrideArmed)));
      Log(InfoLine, CycleComplete(decision));
      RenderChecklist(ev);
    }

    /** The panel half of a finished part: IDLE and one more on the decision's counter. */
    method CountPart(decision: Decision)
      modifies this`state, this`ok, this`scrap, this`hold
      ensures Snapshot() == Finished(old(Snapshot()), decision)
    {
      state := Idle;
      match decision {
        case Accept => ok := ok + 1;
        case Scrap => scrap := scrap + 1;
        case Hold => hold := hold + 1;
      }
    }

    // -------------------------------------------------------------------
    // Outputs

    /** Every output the current job requires is present. */
    method AreOutputsValid() returns (valid: bool)
      ensures valid <==> OutputsComplete(outputs, job.outputsRequired)
    {
      var req := job.outputsRequired;
      var i := 0;
      while i < |req|
        invariant 0 <= i <= |req|
        invariant forall j :: 0 <= j < i ==> Present(outputs, req[j])
      {
        var k := req[i];
        if k == OperatorLogKey {
          if |outputs.operatorLog| == 0 {
            return false;
          }
        } else {
          if !Present(outputs, k) {
            return false;
          }
        }
        i := i + 1;
      }
      return true;
    }

    /** The export button: refused, and logged, until the outputs are
        complete. Building and downloading the file is left out. */
    method Export() returns (exported: bool)
      requires Valid()
      modifies this
      ensures Valid()
      ensures exported <==> OutputsComplete(old(outputs), job.outputsRequired)
      ensures Snapshot() == old(Snapshot())
      ensures outputs == if exported then Logged(old(outputs), alarms, InfoLine, Exported)
                         else Logged(old(outputs), alarms, WarnLine, ExportBlocked)
    {
      exported := AreOutputsValid();
      if !exported {
        Log(WarnLine, ExportBlocked);
        return;
      }
      Log(InfoLine, Exported);
    }
  }

  /** A telemetry history (the sparkline buffers). */
  class History<T> {
    var samples: seq<T>

    constructor ()
      ensures samples == []
    {
      samples := [];
    }

    /** Pushes `v`, then drops the oldest sample if there are more than `maxN`. */
    method PushHist(v: T, maxN: nat)
      modifies this
      ensures samples == Window(old(samples), v, maxN)
    {
      samples := samples + [v];
      if |samples| > maxN {
        samples := samples[1..];
      }
    }
  }

  // ---------------------------------------------------------------------
  // The cycle report as the source builds it

  /** The source's offsets object, which the apply-offsets handler updates in place. */
  class OffsetsUm {
    var x: int
    var z: int

    constructor (x: int, z: int)
      ensures this.x == x && this.z == z
    {
      this.x := x;
      this.z := z;
    }
  }

  /** The source's cycle report keeps the feed override by value but the
      offsets object by reference. */
  datatype SharedCycleReport = SharedCycleReport(feedOv: int, offsets: OffsetsUm)

  /** The offsets and the stored cycle report as the source keeps them: the
      machine object owns one offsets object, and the report stores a
      reference to it. */
  class ReportingAsWritten {
    var offsetsUm: OffsetsUm
    var cycleReport: Option<SharedCycleReport>

    constructor ()
      ensures fresh(offsetsUm) && offsetsUm.x == 0 && offsetsUm.z == 0 && cycleReport.None?
    {
      offsetsUm := new OffsetsUm(0, 0);
      cycleReport := None;
    }

    /** Cycle completion: the report holds the machine's offsets object. */
    method CompleteCycle(feedOv: int)
      modifies this`cycleReport
      ensures cycleReport == Some(SharedCycleReport(feedOv, offsetsUm))
    {
      cycleReport := Some(SharedCycleReport(feedOv, offsetsUm));
    }

    /** An accepted offset request writes into the offsets object in place. */
    method ApplyAccepted(x: int, z: int)
      modifies offsetsUm
      ensures offsetsUm.x == x && offsetsUm.z == z
    {
      offsetsUm.x := x;
      offsetsUm.z := z;
    }
  }

  /** A cycle completes at offsets (0, 0) and the report is stored; the
      operator then applies (25, 0), within the soft limit. The stored report
      now reads 25 although the part was cut at 0. */
  method ReportOffsetsAliasedAsWritten() returns (atCompletion: int, atExport: int)
    ensures atCompletion == 0 && atExport == 25
  {
    var m := new ReportingAsWritten();
    m.CompleteCycle(100);
    atCompletion := m.cycleReport.value.offsets.x;
    m.ApplyAccepted(25, 0);
    atExport := m.cycleReport.value.offsets.x;
  }

  /** The same sequence on the model, whose report copies the offsets: the
      report still reads the offsets the part was cut at. */
  method ReportOffsetsKeptAsIntended() returns (atCompletion: int, atExport: int)
    ensures atCompletion == 0 && atExport == 0
  {
    var m := new Machine(BlankEvidence);
    m.FinishPart(Accept, Metrology(true, true), BlankEvidence);
    atCompletion := m.outputs.cycleReport.value.offsetX;
    m.ApplyVerdict(25, 0);
    assert m.offsetX == 25;
    atExport := m.outputs.cycleReport.value.offsetX;
  }
}
