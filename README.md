# CNC operator panel and power-plant map, modelled in Dafny

Two small browser demos from one repository, modelled as verified Dafny.

**The CNC remote-operator trainer** (`richard-laboratories-website/app.js`)
is a panel over one simulated machine. It has:

- a panel state: IDLE, RUNNING, PAUSED, ALARM or OFFLINE;
- an e-stop latch;
- four job presets;
- a six-item pre-start checklist which, with the e-stop, guards cycle start, pause and resume, the feed and spindle overrides and the work offsets (loading a job, arming the override, the e-stop itself, acknowledging and clearing alarms, resetting the checklist and exporting are not guarded);
- the page's button flags: Start, and the feed, spindle and apply-offsets buttons, are disabled unless the checklist passes, the e-stop is clear and the state allows them, and a press on a disabled button does nothing;
- feed and spindle overrides, clamped to their guardrails;
- work offsets, with a soft limit, a hard limit and a supervisor override key;
- an alarm list numbered by a sequence counter;
- cycle progress and the part counters;
- an outputs accumulator (cycle report, part result, metrology, alarm summary, operator log) that must be complete before a run can be exported.

**The power-plant map** (`script.js`):

- classifies each plant record into a category: a reverse table first, then a case-insensitive substring scan, then "Other";
- colours its marker;
- converts a plant on its first click, crediting a per-category CO2 factor once;
- tallies the markers per category for the legend.

Files:

- `options.dfy` — the `Option` type shared by both demos.
- `cnc_panel.dfy` (module `CncPanel`) — the values and pure rules of the panel:
  - the job table, trimming, the checklist and the guard;
  - the offset verdict;
  - alarm selection, lookup and the id invariants;
  - the outputs, the operation index and the history window.
- `cnc_machine.dfy` (module `CncMachine`):
  - class `Machine`: the source's `SIM` and `machine` objects and the current job, with one method per handler;
  - class `History`: one sparkline buffer;
  - the cycle-report aliasing scenario.
- `plant_map.dfy` (module `PlantMap`) — the classifier, the colour table and the CO2 factor.
- `plant_ledger.dfy` (module `PlantLedger`) — class `PlantMapView`: the markers, the converted set and the running CO2 total, with the click handler, `loadYear` and the legend tally.

How the handlers are specified:

- Each `Machine` handler states its whole effect as an update of a `Panel` record, so every field it does not name is provably unchanged. Its effect on the outputs is stated through `Logged`.
- Each handler preserves `Valid()`:
  - the overrides stay inside their guardrails;
  - the stored offsets stay inside the hard limit;
  - the operation index is a valid index;
  - the alarm ids increase along the list and stay below the sequence counter, so they are unique;
  - the alarm summary always reflects the alarm list.
- `PlantMapView.Valid()` ties the converted set and the running total to a ghost list of credits. Each credit records one plant and the factor it was credited with.

## Model

| member | source | states |
|---|---|---|
| CncPanel.Clamp | richard-laboratories-website/app.js:7 | the result lies in [lo, hi]; it is x when x is in range, lo below the range and hi above it |
| CncPanel.JobOf | richard-laboratories-website/app.js:25-93 | every preset has at least one operation and a positive cycle time, and requires the probe and all five outputs; only the bushing skips the dry run |
| CncPanel.Trim | richard-laboratories-website/app.js:259 | the trimmed text is no longer, starts and ends with a non-space character, is the text itself when that already holds, and is the slice of the text between a white-space prefix and a white-space suffix |
| CncPanel.TrimEmptyIff | richard-laboratories-website/app.js:259 | trimming leaves nothing exactly when every character is white space |
| CncPanel.Utf16Length | richard-laboratories-website/app.js:260 | the JavaScript length of a string lies between its character count and twice that, equals the character count when every character is in the Basic Multilingual Plane, and exceeds it when some character is outside it |
| CncPanel.ToolsMatchJob | richard-laboratories-website/app.js:278-282 | the stub reports a match for every job |
| CncPanel.ChecklistStatus | richard-laboratories-website/app.js:253-276 | ok iff all six items hold; MAT, FIX and TOOLS are the YES answers; PROBE holds iff the probe is not required or answered YES; DRY holds iff the dry run is not required or answered YES; SIGN holds iff the trimmed operator id is at least 4 UTF-16 code units long (JavaScript `.length`) |
| CncPanel.GateBlock | richard-laboratories-website/app.js:489-500 | an action passes iff the checklist is ok and the e-stop is clear; an incomplete checklist is reported before the e-stop, and with the checklist ok a latched e-stop gives the "E-STOP is active" block |
| CncPanel.StartAllowed | richard-laboratories-website/app.js:313 | definition: Start is enabled iff the checklist is ok, the e-stop is clear and the state is IDLE |
| CncPanel.AdjustAllowed | richard-laboratories-website/app.js:317-321 | definition: the feed, spindle and apply-offsets buttons are enabled iff the checklist is ok, the e-stop is clear and the state is IDLE, RUNNING or PAUSED |
| CncPanel.EnabledButtonsPassGate | richard-laboratories-website/app.js:313-321 | an enabled Start implies enabled adjustment buttons; an enabled button passes its handler's checklist and e-stop guard; nothing is enabled in ALARM or OFFLINE |
| CncPanel.CheckOffsets | richard-laboratories-website/app.js:849-868 | blocked hard iff a magnitude exceeds 120 µm; blocked soft iff both are within 120, one exceeds 40 and the override is not armed; accepted offsets are within 120, logged as a warning iff one exceeds 40 |
| CncPanel.Select | richard-laboratories-website/app.js:374-375 | the filtered list is no longer than the alarm list |
| CncPanel.Summarize | richard-laboratories-website/app.js:372-376 | 'active' holds exactly the unacknowledged alarms and 'acked' exactly the acknowledged ones, and the two lengths add up to the alarm count |
| CncPanel.HasActive | richard-laboratories-website/app.js:549 | some alarm is unacknowledged |
| CncPanel.SelectMembers | richard-laboratories-website/app.js:870-871 | the filter keeps exactly the alarms with the given acknowledged flag |
| CncPanel.SelectAppend | richard-laboratories-website/app.js:870-871 | filtering distributes over concatenation, so the kept alarms stay in list order |
| CncPanel.SelectIdempotent | richard-laboratories-website/app.js:870-871 | clearing acknowledged alarms twice removes nothing more |
| CncPanel.HasActiveIffSelected | richard-laboratories-website/app.js:447-449 | some alarm is unacknowledged iff the active filter is non-empty (the `some` test and the `filter` length test agree) |
| CncPanel.FindAlarm | richard-laboratories-website/app.js:442 | the index found holds the id and no earlier alarm has it; none found means no alarm has that id |
| CncPanel.SelectKeepsIds | richard-laboratories-website/app.js:870-871 | filtering keeps alarm ids increasing and below the counter |
| CncPanel.AckKeepsIds | richard-laboratories-website/app.js:444 | setting the acknowledged flag keeps alarm ids increasing and below the counter |
| CncPanel.OutputsComplete | richard-laboratories-website/app.js:358-369 | definition: every output the preset requires is present; its meaning per preset is stated by OutputsCompleteForJob |
| CncPanel.OutputsCompleteForJob | richard-laboratories-website/app.js:358-369 | for every preset, the outputs are complete iff the four records are non-null and the operator log is non-empty |
| CncPanel.Logged | richard-laboratories-website/app.js:224-231 | logging appends exactly one (kind, message) entry, refreshes the alarm summary from the alarm list and leaves the part outputs alone |
| CncPanel.OpIndex | richard-laboratories-website/app.js:702-707 | the index is floor(done/total × ops), capped at the last operation; it is the last one once done reaches total |
| CncPanel.OpIndexMonotone | richard-laboratories-website/app.js:702-707 | the operation index never decreases as progress grows |
| CncPanel.Window | richard-laboratories-website/app.js:576 | the buffer is the old samples plus v, less the oldest one when that exceeds maxN; a buffer within maxN stays within it; v is last, and the buffer is empty only when it was and maxN is 0 |
| CncMachine.Render | richard-laboratories-website/app.js:313-321 | definition: the panel with both button flags recomputed from the checklist for the given evidence, the e-stop and the state; its properties are stated by RenderedButtonsPassGate |
| CncMachine.Finished | richard-laboratories-website/app.js:714-733 | definition: the panel in IDLE with the decision's counter one higher; CountPart states that exactly one counter grows |
| CncMachine.RenderedButtonsPassGate | richard-laboratories-website/app.js:313-321 | after a render, an enabled Start implies enabled adjustments, an enabled button passes the checklist and e-stop guard for the rendered evidence, and in ALARM or OFFLINE every gated button is disabled |
| CncMachine.Machine.constructor | richard-laboratories-website/app.js:921-924 | init leaves an IDLE panel on the shaft job at 100 % overrides and zero offsets, with two log lines and an empty alarm summary, and the buttons rendered for the evidence on the page |
| CncMachine.Machine.RefreshOutputs | richard-laboratories-website/app.js:371-376 | only the alarm summary changes, to the active and acknowledged filters of the alarm list |
| CncMachine.Machine.Log | richard-laboratories-website/app.js:224-231 | one operator-log entry is appended, the summary is refreshed and no panel field changes |
| CncMachine.Machine.RequireChecklistOk | richard-laboratories-website/app.js:489-500 | passes iff the checklist is ok and the e-stop is clear; on a pass nothing changes; on a refusal only one warning is logged, naming the first failing guard |
| CncMachine.Machine.RenderChecklist | richard-laboratories-website/app.js:284-322 | Start is enabled iff the checklist is ok, the e-stop is clear and the panel is IDLE; the feed, spindle and apply-offsets buttons iff the checklist is ok, the e-stop is clear and the panel is IDLE, RUNNING or PAUSED; nothing else changes |
| CncMachine.Machine.LoadJob | richard-laboratories-website/app.js:404-424 | the key and job are set, progress resets, the three part outputs and the summary are nulled, the log is kept plus one line, and the buttons are rendered for the new job's checklist; state, overrides, offsets and alarms are untouched |
| CncMachine.Machine.SelectJob | richard-laboratories-website/app.js:404-410 | only the key, the job, the operation index and the remaining time change: to the preset and its first operation |
| CncMachine.Machine.ResetChecklist | richard-laboratories-website/app.js:787-797 | the evidence is emptied, which fails the checklist and disables every gated button; only a log line is added |
| CncMachine.Machine.ArmOverride | richard-laboratories-website/app.js:502-517 | the override is armed iff the trimmed key is SUP-OVR, with a warning logged either way; nothing else changes |
| CncMachine.Machine.SetOverride | richard-laboratories-website/app.js:505-516 | the flag becomes the comparison's outcome and the matching warning is logged; nothing else changes |
| CncMachine.Machine.CycleStart | richard-laboratories-website/app.js:520-532 | a press while Start is disabled changes nothing; otherwise state changes only when the gate passes and the panel is IDLE: then RUNNING at op 0 with the full cycle time and the part outputs cleared; otherwise only a warning is logged |
| CncMachine.Machine.BeginCycle | richard-laboratories-website/app.js:523-531 | RUNNING at op 0 with the job's full cycle time, the three part outputs cleared and one log line |
| CncMachine.Machine.StartRun | richard-laboratories-website/app.js:523-525 | only state, op index and remaining time change: RUNNING, 0 and the job's cycle time |
| CncMachine.Machine.Pause | richard-laboratories-website/app.js:534-543 | only RUNNING becomes PAUSED (gate passed); every other case changes no panel field |
| CncMachine.Machine.PauseAfterGate | richard-laboratories-website/app.js:536-542 | RUNNING becomes PAUSED with an info line; any other state is kept and a warning logged |
| CncMachine.Machine.Resume | richard-laboratories-website/app.js:545-559 | only PAUSED becomes RUNNING, and only with the gate passed and no unacknowledged alarm; every other case changes no panel field |
| CncMachine.Machine.ResumeAfterGate | richard-laboratories-website/app.js:547-558 | PAUSED becomes RUNNING only with no unacknowledged alarm; otherwise nothing but a warning |
| CncMachine.Machine.Estop | richard-laboratories-website/app.js:561-566 | the e-stop latches and the panel goes OFFLINE; nothing else changes |
| CncMachine.Machine.ClearEstop | richard-laboratories-website/app.js:568-573 | the e-stop releases and the panel returns to IDLE; nothing else changes |
| CncMachine.Machine.PressEstop | richard-laboratories-website/app.js:803-809 | the button toggles the latch, OFFLINE when latched and IDLE when released, then re-renders the buttons: all gated buttons are disabled while latched |
| CncMachine.Machine.AdjustFeed | richard-laboratories-website/app.js:817-828 | a press while the button is disabled changes nothing; with the gate passed, feed moves by −10 / +5 % clamped to 60..115; a refused press changes no panel field |
| CncMachine.Machine.SetFeed | richard-laboratories-website/app.js:817-828 | only the feed override changes, by −10 / +5 % clamped to 60..115, with one info line |
| CncMachine.Machine.AdjustSpindle | richard-laboratories-website/app.js:829-840 | a press while the button is disabled changes nothing; with the gate passed, spindle moves by −10 / +5 % clamped to 70..110; a refused press changes no panel field |
| CncMachine.Machine.SetSpindle | richard-laboratories-website/app.js:829-840 | only the spindle override changes, by −10 / +5 % clamped to 70..110, with one info line |
| CncMachine.Machine.ApplyOffsets | richard-laboratories-website/app.js:844-868 | a press while the button is disabled changes nothing; offsets change only when the gate passes and the verdict accepts; hard- and soft-limit refusals leave them unchanged and log a warning, so stored offsets never exceed 120 µm |
| CncMachine.Machine.ApplyVerdict | richard-laboratories-website/app.js:847-867 | hard and soft refusals change no panel field and log their warning; an accepted pair becomes the offsets, logged as a warning iff over the soft limit |
| CncMachine.Machine.PushAlarm | richard-laboratories-website/app.js:427-439 | exactly one unacknowledged alarm is appended with the current counter as its id, which no earlier alarm has; the counter advances; the state becomes ALARM |
| CncMachine.Machine.AckAlarm | richard-laboratories-website/app.js:441-452 | an unknown id changes nothing; otherwise that alarm is acknowledged and the state becomes PAUSED iff no alarm is left active |
| CncMachine.Machine.ClearAcknowledged | richard-laboratories-website/app.js:870-875 | the alarm list becomes its unacknowledged alarms in order; nothing else in the panel changes |
| CncMachine.Machine.UpdateCycle | richard-laboratories-website/app.js:698-770 | nothing happens unless RUNNING; the countdown and op index advance; at zero the panel goes IDLE, exactly one of ok/scrap/hold grows by one, the part outputs are recorded and the buttons are re-rendered |
| CncMachine.Machine.RunFrame | richard-laboratories-website/app.js:701-768 | the RUNNING frame: before zero only the countdown and op index change; at zero the part is finished and the buttons re-rendered |
| CncMachine.Machine.Advance | richard-laboratories-website/app.js:701-709 | only the remaining time and the op index change: less dt, and the index for the progress made |
| CncMachine.Machine.FinishPart | richard-laboratories-website/app.js:712-768 | IDLE, one more on the decision's counter, the three part outputs recorded from the current panel, one log line and the buttons re-rendered |
| CncMachine.Machine.CountPart | richard-laboratories-website/app.js:714-733 | IDLE and exactly one counter, the decision's, grows by one |
| CncMachine.Machine.AreOutputsValid | richard-laboratories-website/app.js:358-369 | true iff every output the job requires is present (non-null, or a non-empty log) |
| CncMachine.Machine.Export | richard-laboratories-website/app.js:877-894 | the export proceeds iff the outputs are complete, and is logged either way; no panel field changes |
| CncMachine.History.PushHist | richard-laboratories-website/app.js:576 | the buffer becomes the window of old samples plus v (length ≤ maxN, v last) |
| CncMachine.ReportOffsetsAliasedAsWritten | richard-laboratories-website/app.js:754-762 | on an object that stores its offsets object by reference in the report, the report shows 25 µm after a later offset change, though the part completed at 0 |
| CncMachine.ReportingAsWritten.constructor | richard-laboratories-website/app.js:101 | a fresh offsets object at (0, 0) and no report |
| CncMachine.ReportingAsWritten.CompleteCycle | richard-laboratories-website/app.js:754-762 | the report holds the machine's own offsets object |
| CncMachine.ReportingAsWritten.ApplyAccepted | richard-laboratories-website/app.js:864-865 | the offsets object is written in place |
| CncMachine.ReportOffsetsKeptAsIntended | richard-laboratories-website/app.js:754-762 | with the report holding a copy, the same sequence leaves it at the completion offsets |
| PlantMap.AssignAll | script.js:36-38 | every listed type maps to the category and every other key keeps its value |
| PlantMap.ReverseTable | script.js:33-39 | every type listed by the last entry folded in maps to that entry's name: a later entry overwrites an earlier one |
| PlantMap.ReverseTableLookup | script.js:33-39 | a type is a key of the reverse table iff some entry lists it, and then maps to the last entry listing it |
| PlantMap.BuildTypeToCategory | script.js:33-39 | the nested forEach builds exactly the reverse table |
| PlantMap.ReverseTableValues | script.js:33-39 | every value of the reverse table is a category name |
| PlantMap.CategoryTableDisjoint | script.js:22-31 | no plant type is listed under two categories |
| PlantMap.ListedTypesCapitalised | script.js:22-31 | every listed type has at least four characters and starts with a capital letter, so none of them is blank |
| PlantMap.CategoryNamesFollowTable | script.js:22-31 | the legend's category names are the table's entry names, in table order |
| PlantMap.Lower | script.js:65 | lower-casing keeps the length and lowers each ASCII letter |
| PlantMap.Contains | script.js:65 | the empty fragment is always contained, and a contained fragment is no longer than the text |
| PlantMap.ContainsIff | script.js:65 | the scan is true iff the fragment occurs at some position |
| PlantMap.FirstContained | script.js:63-70 | the result is Other or an entry name; if some entry's name occurs in the type, the result is the name of that entry or of an earlier one that also occurs; if none occurs, the result is Other |
| PlantMap.CategoryOf | script.js:55-71 | the category is always a legend key other than Converted; absent, empty, "NaN" and "null" types are Other |
| PlantMap.DeclaredTypeCategory | script.js:59-61 | every listed type is classified under the category that lists it |
| PlantMap.UnlistedTypeCategory | script.js:63-70 | an unlisted non-blank type goes to the first category, in declaration order, whose lower-case name it contains |
| PlantMap.UnmatchedTypeIsOther | script.js:63-71 | an unlisted non-blank type that contains no category name, in any case, is Other |
| PlantMap.GetCategory | script.js:55-71 | the guard, lookup and early-return scan compute CategoryOf |
| PlantMap.ScanEntries | script.js:63-70 | the early-return loop computes the first-contained category |
| PlantMap.ColorKeys | script.js:42-52 | the colour table's keys are the eight categories and Converted |
| PlantMap.ColorsDistinguishCategories | script.js:42-52 | distinct categories have distinct colours, none of them the converted green |
| PlantMap.FillColor | script.js:74-79 | a converted plant is green; otherwise its category's colour, which always exists; green iff converted |
| PlantMap.GetColor | script.js:74-79 | getColor computes FillColor |
| PlantMap.Co2Factor | script.js:156-162 | Coal 2,000,000, Natural Gas 1,000,000, Oil 1,500,000, anything else 500,000; every factor lies in [500,000, 2,000,000] |
| PlantMap.CategoryAsWritten | script.js:59-61 | a name result is always a legend category; the other result is an inherited property name, which is no category |
| PlantMap.ConstructorTypeMisclassified | script.js:59-61 | a plant typed "constructor" gets an inherited member instead of a category, while the intended classifier gives a legend category |
| PlantMap.AsWrittenAgrees | script.js:59-61 | away from the inherited property names the lookup as written equals CategoryOf |
| PlantLedger.MarkersFor | script.js:115-125 | no more markers than records |
| PlantLedger.UsableCoord | script.js:121-122 | a coordinate is usable iff it is a number other than zero (absent, null and NaN are not) |
| PlantLedger.HasValidCoords | script.js:121-122 | both coordinates are usable |
| PlantLedger.MarkerFor | script.js:128-147 | the marker carries the plant's id and a legend category, and is green iff the plant is converted |
| PlantLedger.MarkersForCount | script.js:120-125 | the number of markers is the number of records with usable coordinates |
| PlantLedger.AllDrawnIff | script.js:120-125 | every record is drawn iff every record has usable coordinates |
| PlantLedger.MarkersForSound | script.js:115-147 | each marker comes from a record with usable coordinates, shows a legend category, and is green iff its plant is converted |
| PlantLedger.CountCategories | script.js:173-186 | every colour key is in the tally; each key counts the markers showing that category |
| PlantLedger.Count | script.js:179-186 | a category counts no more markers than there are |
| PlantLedger.TallyMatchesMarkers | script.js:173-186 | the legend's category counts add up to the number of markers, and Converted counts none |
| PlantLedger.TotalBounds | script.js:150-166 | with each plant credited once, the total lies between 500,000 and 2,000,000 per converted plant |
| PlantLedger.PlantMapView.constructor | script.js:10-19 | no markers, no conversions, zero total |
| PlantLedger.PlantMapView.Click | script.js:150-166 | the first click converts the plant, paints the marker green and credits its category's factor; a repeat click changes nothing |
| PlantLedger.PlantMapView.LoadYear | script.js:88-95 | the total resets only when nothing was converted, which leaves it unchanged; the markers become those of the records with usable coordinates; a failed fetch leaves none |
| PlantLedger.PlantMapView.AddMarkers | script.js:115-171 | the loop appends one marker per record with usable coordinates, with the classifier's category and colour |

## Left out

- All DOM and canvas work: pills, rendered lists, the JSON preview, `drawSpark` and the button styling. The buttons' `disabled` flags are kept as two fields.
- Telemetry is left out: `updateTelemetry`, `maybeRaiseAlarms` and the random scrap/hold/metrology draws in `updateCycle`. These are random and floating point. `PushAlarm` can be called directly. The part decision and the metrology pass/fail flags are inputs to `UpdateCycle`.
- Floating point: the overrides are integer percent (60..115 and 70..110, steps −10/+5). `dt` and `remainingSec` are integers. The source uses binary fractions such as 0.60, so its overrides can drift by rounding (0.7000000000000001); the model has no such drift.
- CncPanel.OpIndex: computes floor(done × ops / total) exactly. The source computes (done/total) × ops in floating point, which may round differently at exact operation boundaries.
- Timestamps are left out: `nowTime`, `toISOString`, the report's `completed_at`, alarm times. The `requestAnimationFrame` loop and the simulation-speed button are also left out.
- The JSON export file (`Blob`/`URL`) is left out. `Export` keeps only the gate and the log line.
- CncMachine.Machine.RenderChecklist: the source also renders at the start of every animation frame and on every evidence input; the model leaves those two calls to its caller. `PushAlarm`, `AckAlarm` and the other handlers do not re-render, in the source as in the model, so a press between such a handler and the next render meets the flags as last rendered.
- CncPanel.Summarize: keeps each whole alarm record. The source copies only the id, title, severity and time of each alarm; the time is not modelled.
- Log messages are an `Event` datatype carrying the values the message prints, not the formatted text.
- `richard-laboratories-website/app.js:611` (`machine.toolLife = = undefined;`) is a syntax error, which would stop the whole script from loading. It lies in the telemetry code, which is not modelled; the model describes the script as its authors evidently meant it to run.
- CncMachine.Machine.ApplyOffsets: takes the offsets already rounded to whole micrometres. `Number(offX.value || 0)` of non-numeric text would give NaN, which passes both limit checks in the source. That path depends on the input element's type in the page markup, which is not part of this model.
- CncMachine.Machine.AckAlarm: takes the number n of an alarm id "An". Any other string is an unknown id, which changes nothing, as the model's unknown-id case states.
- CncMachine.Machine.LoadJob: the job key is an enumeration, so the source's crash on an unknown key (`JOBS[key]` undefined) cannot occur in the model.
- The handlers' own `refreshOutputs` calls after `log` are folded into `Log`. Logging already refreshes the alarm summary, so a second refresh changes nothing modelled. Its only other effect, the JSON preview, is not modelled.
- `JobMatchesKey` (the job record is the preset of its key) is established by the constructor and `LoadJob`. It is not part of `Valid()`, because only those two touch either field.
- The sparkline buffers' telemetry values are not modelled; `History<T>` keeps the window rule for any sample type.
- CncPanel.Trim: recognises the Latin-1 white-space characters, not the full Unicode set `String.prototype.trim` removes.
- PlantMap.Lower: lowers ASCII letters only. `toLowerCase` also lowers other scripts, which cannot match any category name anyway.
- PlantLedger.UsableCoord: models a coordinate as absent/null, NaN or a number. A numeric string in the JSON, which `isNaN` would coerce, is not modelled.
- Non-string plant types (numbers, booleans) are not modelled. `type.toLowerCase` would throw on them.
- Leaflet is left out: markers, popups, the legend control and `toLocaleString` formatting. The `fetch` of `plants_<year>.json` and the error banner are also left out. `LoadYear` receives the parsed records, or `None` when the fetch failed.
- PlantLedger.PlantMapView.LoadYear: runs as one step. In the source the markers are cleared at once but added when the fetch resolves, so two quick year changes can leave both years' markers on the map, and a click can land in between. `AddMarkers` appends to whatever markers exist, but the interleaving itself is not modelled.
- The legend tally reads the category back out of each popup's text with a regular expression. The model uses the category the marker was created with. The expression takes the first `Category: …<br>` in the popup, so the model assumes that a plant's name, state and type, which the popup shows before it, never contain that text.

## Findings

| source | as written | input that shows it | evidently intended | confidence | as-written member | corrected member |
|---|---|---|---|---|---|---|
| script.js:59-61 | `typeToCategory` is a plain object, so `typeToCategory[type]` also finds members inherited from `Object.prototype`, and they are truthy | a plant record with type "constructor" (or "toString", "valueOf", …): getCategory returns a function, the marker gets the Other colour, the tally counts it under a key no legend entry shows | only the listed types hit the table; every other type goes to the substring scan, then Other | not executed | PlantMap.ConstructorTypeMisclassified | PlantMap.CategoryOf |
| richard-laboratories-website/app.js:754-762 | the cycle report stores `offsets_um: machine.offsetsUm`, a reference to the live offsets object | complete a cycle at offsets (0, 0), then apply (25, 0) within the soft limit: the stored report and the export now say X = 25 | the report records the offsets the part was cut at | not executed | CncMachine.ReportOffsetsAliasedAsWritten | CncMachine.ReportOffsetsKeptAsIntended |
