# Hydroponics controller firmware and its crash analysers, modelled in Dafny

This project models the decision logic of firmware for an ESP32-S3 hydroponics controller. It also models the two Python scripts that interpret the controller's crash reports. Each core source file has one Dafny module of the same name, flat in this directory.

**Crash analysers** (`crash_analyzer.dfy`, `esp32_state.dfy`, with `scan.dfy` and `text.dfy`):
- The memory regions ROM, IRAM, flash and DRAM, and the verdicts for the PC and the SP.
- The EXCCAUSE tables, DEBUGCAUSE decoding and the 32-bit INTERRUPT scan.
- The report parsers. Each regular expression the scripts use is written out as a hand-made matcher that gives the leftmost match Python would find.

**Bounded containers that change in place**, each a `class` over an `array` or `seq` field:
- the data logger ring (`data_logger.dfy`);
- the notification list (`notification_system.dfy`);
- the screen registry, the navigation history and the screen-instance table (`screen_registry.dfy`, `screen_navigator.dfy`, `screen_lifecycle.dfy`);
- the periodic task table (`task_scheduler.dfy`).

**Settings, clamps and safety gates**:
- hydro settings (`hydro_settings.dfy`);
- lighting schedule and dosing round-robin (`automation_controller.dfy`);
- pump safety limits (`pump_manager.dfy`) and pH/EC pump selection (`ph_ec_controller.dfy`);
- the heuristic dose predictor (`ai_controller.dfy`);
- the PID step (`pid_controller.dfy`), the PID gate (`pump_pid_manager.dfy`) and the adaptive PID bookkeeping (`adaptive_pid.dfy`).

**Counters and fault latches**:
- sensor statistics and lockout (`sensor_manager.dfy`);
- the sensor task's failure latches (`system_tasks.dfy`);
- error statistics and mappings (`error_handler.dfy`);
- popup and notification-screen cooldowns (`popup_screen.dfy`, `notification_screen.dfy`).

**Device logic**:
- the encoder button machine (`encoder.dfy`);
- the XPT2046 touch controller (`xpt2046.dfy`);
- the Trema relay and expander register caches (`trema_relay.dfy`, `trema_expander.dfy`, with `bits.dfy`);
- the editable-value widget (`encoder_value_edit.dfy`);
- pH calibration (`ph_screen.dfy`).

**Encoder navigation** in the three UI layers (`lvgl_main.dfy`, `lvgl_ui.dfy`, `ui_manager.dfy`). They share the 60-point chart history in `sensor_history.dfy`.

Shared modules, all in `wrappers.dfy`:
- `Wrappers`: the `Option` type.
- `Esp`: the `esp_err_t` codes, as `Esp.Err`.
- `Seqs`: bounded pushes and ring views.
- `LvEvents`: the LVGL key and event codes.

Time, sensor readings, I²C, NVS and LVGL results are method parameters. A class field records the calls a method makes (pump runs, I²C writes, screen requests, listener calls), and the contract states that list.

Floating-point values are `real` and counters are unbounded `nat`. Where the source's unsigned wrap-around decides a result, the model spells it out: the hourly pump reset, the focus arithmetic and the calibration step.

## Model

| member | source | states |
|---|---|---|
| CrashAnalyzer.ClassifyPc | analyze_crash.py:67-83 | a region other than Unknown contains the PC, and Unknown is returned exactly when no region contains it |
| CrashAnalyzer.RegionsDisjoint | analyze_crash.py:69-78 | no address lies in two of the ROM, IRAM, Flash and DRAM intervals |
| CrashAnalyzer.ClassifyPcExact | analyze_crash.py:67-83 | every address gets the one region that contains it, and Unknown when none does |
| CrashAnalyzer.PcVerdictOf | analyze_crash.py:69-83 | the verdict is normal execution exactly for IRAM and Flash, and a wild jump exactly for an unknown region |
| CrashAnalyzer.SpInDram | analyze_crash.py:85-92 | the stack pointer is accepted exactly when it lies in the DRAM interval |
| CrashAnalyzer.DecodeException | analyze_crash.py:94-118 | total for every code: a table entry exactly for the ten known codes, and only code 0 is OK |
| CrashAnalyzer.BitsGroupEnd | analyze_crash.py:43 | the optional `(/N)` group followed by `\s*` ends inside the text, no earlier than where it was tried |
| CrashAnalyzer.HexTail | analyze_crash.py:43 | the `(?:0x)?hex+` tail matches exactly when a hex digit follows |
| CrashAnalyzer.SearchField | analyze_crash.py:43-65 | re.search semantics: the match at the leftmost position where the field pattern matches, and None exactly when it matches nowhere |
| CrashAnalyzer.GdbRegisterLineParses | analyze_crash.py:43-45 | a GDB register line `pc 0x4005` yields the value 0x4005 |
| CrashAnalyzer.BodyEnd | analyze_crash.py:127 | the lazy section body stops at the first blank line or at the end of the text |
| CrashAnalyzer.HeaderLineEnd | analyze_crash.py:127 | the `header.*?\n` prefix ends at a newline inside the text |
| CrashAnalyzer.SectionIsBodyAfterHeaderLine | analyze_crash.py:127-129 | with the first occurrence of the header and the first newline after it, the section body is the text after that newline up to the first blank line or the end |
| CrashAnalyzer.NewlineAfterHeaderFindsSection | analyze_crash.py:127-129 | a header followed somewhere by a newline always yields a section |
| CrashAnalyzer.NoHeaderNoSection | analyze_crash.py:127-156 | a text without the header has no section, which is the "section not found" outcome |
| CrashAnalyzer.DoubleNewlineStops | analyze_crash.py:127 | two consecutive newlines always end a section body |
| CrashAnalyzer.BodyHasNoBlankLine | analyze_crash.py:127-129 | a section body contains no blank line |
| CrashAnalyzer.LastLineStart | analyze_crash.py:132 | the greedy `\s+` hands over to `.+` at the last position in the range whose next character exists and is not a newline |
| CrashAnalyzer.KeywordSpan | analyze_crash.py:132 | `\s+in\s+` and `\s+at\s+` span a non-empty run after the match position |
| CrashAnalyzer.AtGroup | analyze_crash.py:132 | the `at` group captures a non-empty location that runs up to the end of its line |
| CrashAnalyzer.FuncEnd | analyze_crash.py:132 | the lazy function group stops at the first position where the location group or the end of line can follow |
| CrashAnalyzer.InGroup | analyze_crash.py:132 | the optional `in` group captures a non-empty function name |
| CrashAnalyzer.FrameAt | analyze_crash.py:132-133 | a frame match starts with `#` and has a non-empty run of decimal digits as its number |
| CrashAnalyzer.FindFrames | analyze_crash.py:132-133 | re.findall yields matches left to right, each with an all-digit frame number |
| CrashAnalyzer.NoHashNoFrames | analyze_crash.py:132-135 | a body without `#` yields no frames |
| CrashAnalyzer.NotSpaceNoKeyword | analyze_crash.py:132 | neither keyword group can start at a character that is not whitespace |
| CrashAnalyzer.FrameLineLocation | analyze_crash.py:131-132 | on the sample frame line the location group is `main.c:42` |
| CrashAnalyzer.FuncEndStep | analyze_crash.py:132 | the lazy function name always extends past a character that is not whitespace |
| CrashAnalyzer.FrameLineNameStep | analyze_crash.py:131-132 | inside `app_main ()` on the sample line the function name keeps extending |
| CrashAnalyzer.FrameLineFunctionEnd | analyze_crash.py:131-132 | on the sample frame line the function group is `app_main ()`, stopping before ` at` |
| CrashAnalyzer.ToFrame | analyze_crash.py:143-148 | a frame keeps its address, and its function and location are `??` exactly when the group is missing or is `??` itself |
| CrashAnalyzer.FirstQuoted | analyze_crash.py:172 | the lazy `.*?` takes the first quoted name on the line |
| CrashAnalyzer.TaskAt | analyze_crash.py:172 | a task match captures a non-empty name without quotes |
| CrashAnalyzer.FindTasks | analyze_crash.py:172-178 | every task found has a non-empty name without quotes |
| CrashAnalyzer.FindCodePointers | analyze_crash.py:198 | every code pointer found is `0x`, then 4 or 8, then 7 more hex digits: ten characters in all |
| CrashAnalyzer.Distinct | analyze_crash.py:203 | the distinct values contain exactly the values of the input |
| CrashAnalyzer.DistinctHasNoDuplicates | analyze_crash.py:203 | the distinct values have no duplicates, and there are as many as the set of inputs |
| CrashAnalyzer.Sample | analyze_crash.py:203-206 | at most ten listed values, all distinct and all found; fewer only when fewer distinct values exist |
| CrashAnalyzer.FirstN | analyze_crash.py:230 | the first n elements, or all of them when there are fewer (with line 237) |
| CrashAnalyzer.TaskNames | analyze_crash.py:236-238 | the name of every task, in order |
| CrashAnalyzer.MakeSummary | analyze_crash.py:214-255 | the ROM advice exactly when the PC is in ROM; the stack advice exactly when there is no backtrace; PC and SP printed only when non-zero, with their values; the frame and task counts; the first five frames and the names of the first five tasks |
| CrashAnalyzer.ZeroPcIsAbsent | analyze_crash.py:223 | a zero PC gives the same summary as a missing one (with line 243) |
| CrashAnalyzer.Analyzer.constructor | analyze_crash.py:12-19 | the analyzer starts with empty data and no registers, frames or tasks |
| CrashAnalyzer.Analyzer.LoadReport | analyze_crash.py:21-34 | loading succeeds exactly when the file could be read, and the data is replaced only then |
| CrashAnalyzer.Analyzer.ParseRegisters | analyze_crash.py:36-65 | PC, SP and EXCCAUSE each come from their first match; an unmatched register keeps its value; each found value is classified |
| CrashAnalyzer.Analyzer.ParseBacktrace | analyze_crash.py:120-156 | a missing section leaves the frames alone; otherwise every match is appended in order, and "no frames" differs from "section missing" |
| CrashAnalyzer.Analyzer.ParseTasks | analyze_crash.py:158-183 | a missing section leaves the tasks alone; otherwise every task match is appended in order |
| CrashAnalyzer.Analyzer.AnalyzeStackContent | analyze_crash.py:185-212 | a missing section, no pointers, or the count of all pointers with at most ten distinct samples |
| CrashAnalyzer.Analyzer.GenerateSummary | analyze_crash.py:214-255 | the ROM advice exactly for a ROM PC, and the stack advice exactly without frames |
| CrashAnalyzer.Analyzer.Analyze | analyze_crash.py:257-268 | fails and changes nothing exactly when the report cannot be read; otherwise the data is the report, PC and SP come from their first matches or are kept, the frames and tasks of the two sections are appended, and the summary is that of the parsed state |
| Esp32State.RegAt | analyze_esp32_state.py:21 | a register line match starts at `(`, ends inside the text and names a non-empty run of word characters |
| Esp32State.FindRegs | analyze_esp32_state.py:23 | re.finditer: every match lies after the resume position and inside the dump |
| Esp32State.NoParenNoRegs | analyze_esp32_state.py:21-23 | a dump without `(` yields no register |
| Esp32State.StoreLastWins | analyze_esp32_state.py:23-27 | the last line for a register name decides its stored value |
| Esp32State.StoreUntouched | analyze_esp32_state.py:23-27 | a name no line mentions keeps its earlier value, or stays absent |
| Esp32State.Get | analyze_esp32_state.py:30-31 | `dict.get(name, 0)`: the stored value, 0 when the name is absent |
| Esp32State.StateAnalyzer.constructor | analyze_esp32_state.py:12-16 | an empty register table and no PC or SP |
| Esp32State.StateAnalyzer.ParseRegisterDump | analyze_esp32_state.py:18-34 | every match stored into the existing table in order; PC and SP read from `pc` and `a1` with 0 when missing; the table is returned |
| Esp32State.AnalyzePc | analyze_esp32_state.py:36-67 | the label of the crash analyser's region for the PC, and "Unknown" exactly when no region contains it |
| Esp32State.AnalyzeSp | analyze_esp32_state.py:69-91 | the DRAM verdict exactly when the SP lies in DRAM; the upper-DRAM branch is never chosen |
| Esp32State.CauseTablesDisagree | analyze_esp32_state.py:107-109 | this table names EXCCAUSE 1 SyscallCause where the crash analyser says IllegalInstructionCause |
| Esp32State.DebugEvents | analyze_esp32_state.py:122-130 | each debug event is listed exactly when its DEBUGCAUSE bit is set, and no event twice |
| Esp32State.AllDebugCauses | analyze_esp32_state.py:123-130 | the four debug-cause tests are independent: 0x27 lists all four events |
| Esp32State.AnalyzeExceptions | analyze_esp32_state.py:93-134 | no cause exactly for EXCCAUSE 0; "Unknown" exactly for a non-zero code outside the table; code 0's name is never printed; the fault address is shown exactly when EXCVADDR is non-zero |
| Esp32State.DecimalText | analyze_esp32_state.py:159 | `str(i)` is a non-empty run of decimal digits |
| Esp32State.DecimalTextRoundTrip | analyze_esp32_state.py:159 | the decimal text reads back as the number |
| Esp32State.IrqName | analyze_esp32_state.py:152-159 | a bit outside the five named ones is called `IRQ` followed by its number |
| Esp32State.ListsSetBitsStep | analyze_esp32_state.py:150-160 | one more bit examined: its line is appended exactly when the bit is set |
| Esp32State.AnalyzeInterrupts | analyze_esp32_state.py:136-162 | "no active interrupts" exactly when INTERRUPT is 0; otherwise exactly the set bits among 0..31, in increasing order, with their names |
| Esp32State.SampleInterruptBits | analyze_esp32_state.py:145-160 | the word 0x00018040 has bits 6, 15 and 16 set and bits 19 and 22 clear |
| DataLogger.Slot | components/data_logger/data_logger.c:50-53 | the storage index is below the capacity and equals (head + i) mod capacity |
| DataLogger.LogView | components/data_logger/data_logger.c:50-53 | the logical contents have count entries, entry i being the slot (head + i) mod capacity |
| DataLogger.RingAppend | components/data_logger/data_logger.c:76-79 | writing the free slot after the newest entry appends exactly that entry |
| DataLogger.RingOverwrite | components/data_logger/data_logger.c:80-83 | overwriting the oldest entry of a full ring and advancing the head drops the oldest and appends the new one |
| DataLogger.RingDrop | components/data_logger/data_logger.c:90-97 | clearing the oldest slot and advancing the head drops exactly the first entry |
| DataLogger.DropOlder | components/data_logger/data_logger.c:88-104 | a suffix of the entries: every dropped entry is older than the threshold and the first kept one is not |
| DataLogger.Cleaned | components/data_logger/data_logger.c:479-484 | cleanup leaves the entries alone when disabled or with 0 days, else drops those older than now minus the days |
| DataLogger.LogKeepsIdsOrdered | components/data_logger/data_logger.c:74-86 | logging with `id = next_id++` keeps the ids increasing and below the next id (with line 283) |
| DataLogger.DropKeepsIdsOrdered | components/data_logger/data_logger.c:88-104 | trimming by age keeps the ids increasing |
| DataLogger.Restored | components/data_logger/data_logger.c:203-228 | at most the capacity is restored, a prefix of the stored entries, all of them when they fit |
| DataLogger.Logger.Contents | components/data_logger/data_logger.c:50-53 | the logical contents have as many entries as the count, never more than the capacity |
| DataLogger.Logger.constructor | components/data_logger/data_logger.c:19-30 | not initialised, empty, next id 1, auto-cleanup off with 7 days |
| DataLogger.Logger.Init | components/data_logger/data_logger.c:236-267 | a second call is a no-op; capacity 0 is refused; otherwise an empty buffer of that capacity with next id 1 |
| DataLogger.Logger.StoreEntry | components/data_logger/data_logger.c:74-86 | the contents become the old ones with the entry appended, the oldest dropped when full; the buffer is dirty |
| DataLogger.Logger.DropOldest | components/data_logger/data_logger.c:90-97 | one eviction step drops exactly the oldest entry |
| DataLogger.Logger.RemoveOldEntries | components/data_logger/data_logger.c:88-104 | the contents lose exactly the leading entries older than the threshold; an empty buffer resets the head; dirty when something went |
| DataLogger.Logger.Log | components/data_logger/data_logger.c:269-291 | refused before init; otherwise the entry with the next id, the time and the truncated message is appended, and the ids stay ordered |
| DataLogger.Logger.Clear | components/data_logger/data_logger.c:365-387 | refused before init; otherwise the contents are empty, every slot zeroed and the buffer dirty |
| DataLogger.Logger.OldestFirst | components/data_logger/data_logger.c:135-140 | the copy loop yields the contents oldest first |
| DataLogger.Logger.Save | components/data_logger/data_logger.c:106-164 | on NVS success the header (version 1, count, next id) and the entries (erased when none) are stored and the buffer is clean; on failure nothing changes |
| DataLogger.LoadLengthsAsWritten | components/data_logger/data_logger.c:203-215 | the buffer holds at most the capacity of entries and no more than the blob, while the read asks for the whole blob |
| DataLogger.LoadReadOverrunsBuffer | components/data_logger/data_logger.c:203-215 | a blob of more entries than the capacity is read into a buffer smaller than itself |
| DataLogger.LoadShortBlobGetsEmptyBuffer | components/data_logger/data_logger.c:203-215 | a blob shorter than one entry gets a buffer of no bytes |
| DataLogger.Logger.Load | components/data_logger/data_logger.c:166-234 | a missing or foreign header changes nothing; a missing blob empties the buffer; otherwise at most the capacity is restored with the stored next id |
| DataLogger.Logger.SetAutoCleanup | components/data_logger/data_logger.c:436-442 | the flag is set and 0 days falls back to 7, so the age limit is always positive |
| DataLogger.Logger.AutoCleanup | components/data_logger/data_logger.c:479-484 | the contents become the cleaned contents |
| DataLogger.Logger.Process | components/data_logger/data_logger.c:465-492 | refused before init; otherwise cleanup, then a save exactly when dirty and at least 300 s since the last one; a successful save stores the new contents |
| NotificationSystem.Unread | components/notification_system/notification_system.c:219-241 | the unread count is at most the list length and 0 exactly when every notification is acknowledged |
| NotificationSystem.CriticalIsUnread | components/notification_system/notification_system.c:282-302 | an unacknowledged critical notification counts as unread |
| NotificationSystem.AcknowledgeUnread | components/notification_system/notification_system.c:195-241 | acknowledging an unread entry lowers the unread count by one; an acknowledged one keeps it |
| NotificationSystem.CreateKeepsIdsOrdered | components/notification_system/notification_system.c:111-120 | creating with `id = next_id++` keeps the ids increasing and below the next id |
| NotificationSystem.OrderedIdsAreUnique | components/notification_system/notification_system.c:120 | with ordered ids at most one notification has a given id, so acknowledge marks the one created with it (with lines 204-208) |
| NotificationSystem.FirstWithId | components/notification_system/notification_system.c:204-208 | the first index with that id, and None exactly when no entry has it |
| NotificationSystem.FirstWithIdIs | components/notification_system/notification_system.c:204-208 | an index whose id matches with no earlier match is the one found |
| NotificationSystem.FirstWithIdNone | components/notification_system/notification_system.c:204-213 | no matching entry gives no index |
| NotificationSystem.RestoreInto | components/notification_system/notification_system.c:466-490 | the saved entries are appended in order until the list is full |
| NotificationSystem.ZeroCapacityCreateWritesOutOfBounds | components/notification_system/notification_system.c:31-58 | with capacity 0 the count wraps to 0xFFFFFFFF and the entry is written at that index, where a full list of five writes its last slot (with lines 111-120) |
| NotificationSystem.Notifications.Contents | components/notification_system/notification_system.c:17-24 | the list holds count entries, never more than the capacity |
| NotificationSystem.Notifications.constructor | components/notification_system/notification_system.c:17-25 | not initialised, next id 1, no last message |
| NotificationSystem.Notifications.Init | components/notification_system/notification_system.c:31-58 | a second call is a no-op; capacity 0 is refused; otherwise an empty list of that capacity with next id 1 |
| NotificationSystem.Notifications.ShiftOut | components/notification_system/notification_system.c:111-116 | the memmove drops the oldest entry and keeps the order of the rest |
| NotificationSystem.Notifications.Create | components/notification_system/notification_system.c:86-193 | id 0 exactly when not initialised, NULL message, or the same text within 30 s; otherwise the next id, the entry appended (oldest dropped when full) and the debounce text and time updated |
| NotificationSystem.Notifications.Acknowledge | components/notification_system/notification_system.c:195-217 | refused before init; NOT_FOUND when no entry has the id; otherwise exactly the first entry with it is acknowledged |
| NotificationSystem.Notifications.UnreadCount | components/notification_system/notification_system.c:219-241 | the number of unacknowledged entries |
| NotificationSystem.Notifications.HasCritical | components/notification_system/notification_system.c:282-302 | true exactly when an unacknowledged critical notification exists |
| NotificationSystem.Notifications.ClearAll | components/notification_system/notification_system.c:250-266 | refused before init; otherwise the list is empty and every slot cleared |
| NotificationSystem.Notifications.SensorWarning | components/notification_system/notification_system.c:305-316 | within the limits nothing is created; a created warning is of HIGH priority and carries the low or the high text by the side violated |
| NotificationSystem.Notifications.RestoreCritical | components/notification_system/notification_system.c:427-503 | before init nothing is restored; otherwise the saved entries are appended until full, and the number appended is returned |
| ScreenRegistry.IsScreenIdValid | components/lvgl_ui/screen_manager/screen_registry.c:44-61 | an id is valid exactly when it is not NULL and is a non-empty string of allowed characters within the length limit |
| ScreenRegistry.ScreenIndex | components/lvgl_ui/screen_manager/screen_registry.c:26-39 | the first configuration with that id, and None exactly when none has it |
| ScreenRegistry.InstanceIndex | components/lvgl_ui/screen_manager/screen_lifecycle.c:182-196 | the first instance of that screen, and None exactly when there is none |
| ScreenRegistry.AppendKeepsUnique | components/lvgl_ui/screen_manager/screen_registry.c:123-146 | registering an id not yet present keeps the ids unique |
| ScreenRegistry.RemoveKeepsUnique | components/lvgl_ui/screen_manager/screen_registry.c:166-187 | removing one configuration keeps the rest unique and leaves no entry with that id |
| ScreenRegistry.RegisterThenFound | components/lvgl_ui/screen_manager/screen_registry.c:100-153 | a screen just registered is found at the end of the table |
| ScreenRegistry.FirstScreenIs | components/lvgl_ui/screen_manager/screen_registry.c:26-39 | an index with that id and no earlier match is the one found |
| ScreenRegistry.FirstInstanceIs | components/lvgl_ui/screen_manager/screen_lifecycle.c:182-196 | an instance with that screen id and no earlier match is the one found |
| ScreenRegistry.Manager.History | components/lvgl_ui/screen_manager/screen_registry.c:16 | the history holds history_count entries, never more than the maximum |
| ScreenRegistry.Manager.constructor | components/lvgl_ui/screen_manager/screen_registry.c:16 | the zeroed record: not initialised, no screens, no instances, no current screen, empty history |
| ScreenRegistry.Manager.Init | components/lvgl_ui/screen_manager/screen_registry.c:67-98 | idempotent; the first call zeroes the record and sets cache on, history on, cache size 5, transition 300 ms, animations off |
| ScreenRegistry.Manager.FindScreen | components/lvgl_ui/screen_manager/screen_registry.c:26-39 | the loop finds the same index as the first-match lookup |
| ScreenRegistry.Manager.Register | components/lvgl_ui/screen_manager/screen_registry.c:100-153 | success exactly for a non-NULL config with a valid id, a create function, room and a new id, which is then appended; INVALID_ARG, NO_MEM and INVALID_STATE in that order otherwise, the table unchanged |
| ScreenRegistry.Manager.Unregister | components/lvgl_ui/screen_manager/screen_registry.c:155-197 | INVALID_ARG for a bad id, NOT_FOUND for an unknown one; otherwise exactly that configuration is removed and the others keep their order |
| ScreenRegistry.Manager.GetConfig | components/lvgl_ui/screen_manager/screen_registry.c:199-206 | a configuration exactly when the id is valid and registered, and it is the one with that id |
| ScreenLifecycle.Lookup | components/lvgl_ui/screen_manager/screen_lifecycle.c:182-196 | the instance of that screen exactly when one exists |
| ScreenLifecycle.Without | components/lvgl_ui/screen_manager/screen_lifecycle.c:419-430 | the history with every entry for that screen removed |
| ScreenLifecycle.WithoutAppend | components/lvgl_ui/screen_manager/screen_lifecycle.c:419-430 | removing a screen from a concatenation removes it from each part |
| ScreenLifecycle.WithoutAbsent | components/lvgl_ui/screen_manager/screen_lifecycle.c:419-430 | a history without that screen is left as it is |
| ScreenLifecycle.RemoveOccurrence | components/lvgl_ui/screen_manager/screen_lifecycle.c:419-430 | removing one entry for the screen does not change what the purge leaves |
| ScreenLifecycle.UniqueIndex | components/lvgl_ui/screen_manager/screen_lifecycle.c:182-196 | with unique instances each instance is found at its own index |
| ScreenLifecycle.LookupUpdate | components/lvgl_ui/screen_manager/screen_lifecycle.c:740-765 | replacing an instance by one of the same screen keeps uniqueness and every other lookup |
| ScreenLifecycle.LookupRemove | components/lvgl_ui/screen_manager/screen_lifecycle.c:436-440 | removing an instance keeps uniqueness, loses that screen and keeps every other lookup |
| ScreenLifecycle.LookupAppend | components/lvgl_ui/screen_manager/screen_lifecycle.c:323-328 | appending an instance of a new screen keeps uniqueness and every other lookup |
| ScreenLifecycle.FindInstance | components/lvgl_ui/screen_manager/screen_lifecycle.c:182-196 | the loop finds the same index as the first-match lookup |
| ScreenLifecycle.CreateInstance | components/lvgl_ui/screen_manager/screen_lifecycle.c:210-339 | an existing instance is reused; NOT_FOUND for an unregistered id; NO_MEM when the table is full; FAIL when create_fn fails; otherwise a new instance appended, created and hidden; no other screen's instance changes |
| ScreenLifecycle.RemoveHistoryAt | components/lvgl_ui/screen_manager/screen_lifecycle.c:423-427 | the shift removes history entry i and keeps the order of the rest |
| ScreenLifecycle.PurgeHistory | components/lvgl_ui/screen_manager/screen_lifecycle.c:419-430 | every history entry for the screen is removed and the others keep their order |
| ScreenLifecycle.DestroyInstance | components/lvgl_ui/screen_manager/screen_lifecycle.c:341-451 | NOT_FOUND without an instance; INVALID_STATE for the visible current screen; otherwise the instance and its history entries go and the current screen is cleared when it was this one |
| ScreenLifecycle.HideInstance | components/lvgl_ui/screen_manager/screen_lifecycle.c:680-774 | NOT_FOUND without an instance; a hidden screen is left alone; a visible one is destroyed when destroy_on_hide, else hidden, cached when cache_on_hide, its group emptied |
| ScreenLifecycle.EnsureInstance | components/lvgl_ui/screen_manager/screen_lifecycle.c:488-519 | an existing instance is used; an unregistered id is NOT_FOUND; success leaves an instance of the screen |
| ScreenLifecycle.HidePrevious | components/lvgl_ui/screen_manager/screen_lifecycle.c:542-563 | a different current screen that is visible is hidden as hide_instance hides it; the history changes only by the purge a destroy_on_hide hide makes, and the new screen's instance is untouched |
| ScreenLifecycle.Activate | components/lvgl_ui/screen_manager/screen_lifecycle.c:537-669 | the screen becomes the visible current screen; a different visible previous screen is hidden as hide_instance hides it (destroyed and purged from the history when destroy_on_hide, else hidden and cached when cache_on_hide); the history changes only by that purge |
| ScreenLifecycle.ShowInstance | components/lvgl_ui/screen_manager/screen_lifecycle.c:457-678 | showing the visible current screen is a no-op; NOT_FOUND for an unregistered id; when can_show_fn refuses any other screen, NOT_ALLOWED and nothing changes, and NOT_ALLOWED only then; success makes it the visible current screen, hides the previous one as hide_instance does and changes the history only by that hide's purge; failure keeps the current screen and history |
| ScreenLifecycle.AddToEncoderGroup | components/lvgl_ui/screen_manager/screen_lifecycle.c:921-987 | NULL means the current screen; NOT_FOUND without an instance; INVALID_STATE without a group; otherwise the widget is in the group, added once |
| ScreenNavigator.ShowFailureLosesEntryWithoutCurrent | components/lvgl_ui/screen_manager/screen_navigator.c:126-139 | with no current screen a failed show still pops the newest history entry |
| ScreenNavigator.ShowFailureLosesOldestWhenFull | components/lvgl_ui/screen_manager/screen_navigator.c:126-139 | with a full history a failed show loses the oldest entry for good (with lines 21-63) |
| ScreenNavigator.ShowFailureRestoresBelowCapacity | components/lvgl_ui/screen_manager/screen_navigator.c:126-139 | below capacity, with a current screen, the rollback restores the history |
| ScreenNavigator.PushHistory | components/lvgl_ui/screen_manager/screen_navigator.c:21-63 | history off is a no-op; NULL is INVALID_ARG; otherwise the instance is pushed, the oldest dropped when full, and the index points at the newest |
| ScreenNavigator.PopHistory | components/lvgl_ui/screen_manager/screen_navigator.c:68-110 | an empty history yields nothing; otherwise the newest entry is returned and removed, its slot cleared |
| ScreenNavigator.RestoreHistory | components/lvgl_ui/screen_manager/screen_navigator.c:137 | the history is written back exactly as saved |
| ScreenNavigator.NavigatorShow | components/lvgl_ui/screen_manager/screen_navigator.c:116-143 | success makes the screen the visible current one, the history being the old one with the previous screen pushed (oldest dropped when full) when history is on, less that screen when hiding destroyed it; failure leaves the history and current screen exactly as before |
| ScreenNavigator.GoBack | components/lvgl_ui/screen_manager/screen_navigator.c:145-176 | an empty history is INVALID_STATE; success makes the newest entry the current screen and leaves the rest of the history (less a destroyed previous screen); failure pushes it back when history is on |
| ScreenNavigator.GoToParent | components/lvgl_ui/screen_manager/screen_navigator.c:178-199 | INVALID_STATE without a current screen; NOT_SUPPORTED without can_go_back or a parent id; success makes the parent current, with the history that of showing it (the current screen pushed when history is on); failure keeps the history |
| ScreenNavigator.FirstRoot | components/lvgl_ui/screen_manager/screen_navigator.c:207-216 | the first registered root screen, and None exactly when there is none |
| ScreenNavigator.FirstRootIs | components/lvgl_ui/screen_manager/screen_navigator.c:207-216 | a root with no earlier root is the one found |
| ScreenNavigator.ClearHistory | components/lvgl_ui/screen_manager/screen_navigator.c:233-254 | the history is empty and every slot cleared |
| ScreenNavigator.GoHome | components/lvgl_ui/screen_manager/screen_navigator.c:201-221 | NOT_FOUND without a root screen; otherwise the history ends empty whether or not the show succeeds, and success makes the first root the current screen |
| HydroSettings.ClampReal | components/hydro_settings/hydro_settings.c:161-199 | the float setters' clamp: inside the range, the value itself inside, the nearer bound outside |
| HydroSettings.ClampNat | components/hydro_settings/hydro_settings.c:201-221 | the uint32 setters' clamp: inside the range, the value itself inside, the nearer bound outside |
| HydroSettings.NormalizeHour | components/hydro_settings/hydro_settings.c:75-78 | an hour below 24 congruent to the argument modulo 24, and the argument itself when already below 24 |
| HydroSettings.RepeatedSetIsNoChange | components/hydro_settings/hydro_settings.c:43-46 | clamping is idempotent, so repeating a float setter finds no change and does not save again (with lines 66-73) |
| HydroSettings.Deliveries | components/hydro_settings/hydro_settings.c:34-41 | each listener call carries the current settings and goes to a registered, non-NULL listener |
| HydroSettings.StopSlot | components/hydro_settings/hydro_settings.c:256-263 | the registration loop stops at the listener itself or the first free slot, and finds none exactly when neither exists |
| HydroSettings.StopSlotIs | components/hydro_settings/hydro_settings.c:256-263 | a slot holding the listener or free, with neither earlier, is where the loop stops |
| HydroSettings.StopSlotNone | components/hydro_settings/hydro_settings.c:256-270 | with no free slot and no copy of the listener the loop finds nothing |
| HydroSettings.RegisterKeepsSlots | components/hydro_settings/hydro_settings.c:251-271 | registering a new listener into the first free slot keeps the slots packed and without duplicates |
| HydroSettings.SaveThenLoad | components/hydro_settings/hydro_settings.c:80-133 | a record saved by this module is adopted unchanged by the next load |
| HydroSettings.MismatchKeepsCurrent | components/hydro_settings/hydro_settings.c:113-127 | a missing blob or one of another size or version leaves the current settings in force |
| HydroSettings.Store.constructor | components/hydro_settings/hydro_settings.c:14-30 | the default settings, no listener, not initialised |
| HydroSettings.Store.NotifyListeners | components/hydro_settings/hydro_settings.c:34-41 | every non-NULL listener is called once, in slot order, with the current settings |
| HydroSettings.Store.SaveToNvs | components/hydro_settings/hydro_settings.c:80-103 | the NVS outcome is returned, and the blob holds the settings exactly when it succeeded |
| HydroSettings.Store.UpdateAndSave | components/hydro_settings/hydro_settings.c:152-159 | the listeners are told exactly when the save succeeded |
| HydroSettings.Store.SetFloat | components/hydro_settings/hydro_settings.c:161-199 | the field takes the clamped value; a change of less than 0.01 saves nothing and returns OK; otherwise the save result is returned, listeners are told only after a good save, and the field is kept even when it fails (with lines 66-73) |
| HydroSettings.Store.SetU32 | components/hydro_settings/hydro_settings.c:201-221 | the field takes the clamped value; an equal value saves nothing; otherwise the save result is returned (with lines 57-64) |
| HydroSettings.Store.SetBool | components/hydro_settings/hydro_settings.c:223-236 | the flag takes the value; an equal value saves nothing; otherwise the save result is returned (with lines 48-55) |
| HydroSettings.Store.SetLightingSchedule | components/hydro_settings/hydro_settings.c:238-249 | both hours are normalised below 24; unchanged hours save nothing; otherwise the save result is returned |
| HydroSettings.Store.RegisterListener | components/hydro_settings/hydro_settings.c:251-271 | NULL is INVALID_ARG; a listener already present or put in the first free slot is registered, and called at once when initialised; no slot gives NO_MEM |
| HydroSettings.Store.LoadFromNvs | components/hydro_settings/hydro_settings.c:105-133 | a valid blob is adopted; otherwise the current settings are kept and re-saved |
| HydroSettings.Store.Init | components/hydro_settings/hydro_settings.c:135-145 | load once, then every listener hears the settings; a second call is a no-op |
| AutomationController.ScheduleIsClockWindow | components/automation_controller/automation_controller.c:68-79 | the lights are on for the hours from the on hour up to the off hour on a 24-hour clock, wrapping past midnight |
| AutomationController.ScheduleSwapIsComplement | components/automation_controller/automation_controller.c:68-79 | swapping the on and off hours gives the complementary schedule |
| AutomationController.CooldownThreshold | components/automation_controller/automation_controller.c:120-132 | after a dose the pump may dose again exactly from the cooldown in milliseconds on |
| AutomationController.RunPump | components/automation_controller/automation_controller.c:37-46 | one pump run of that duration exactly when the pins are valid, none otherwise |
| AutomationController.ValidChannels | components/automation_controller/automation_controller.c:139-155 | the kept channels are candidates, in order |
| AutomationController.ValidChannelsAreTheValidOnes | components/automation_controller/automation_controller.c:139-155 | a channel is kept exactly when it is a candidate with valid pins |
| AutomationController.Step | components/automation_controller/automation_controller.c:163 | the cursor step stays below the channel count |
| AutomationController.Advance | components/automation_controller/automation_controller.c:157-166 | after any number of doses the cursor stays below the count |
| AutomationController.StepIsIncrementModulo | components/automation_controller/automation_controller.c:163 | the step is the source's increment modulo the count |
| AutomationController.AdvanceIs | components/automation_controller/automation_controller.c:157-166 | k doses from i land on i + k, wrapped once |
| AutomationController.RoundRobinVisitsEachOnce | components/automation_controller/automation_controller.c:157-166 | any count consecutive EC doses use every channel once and come back to the start |
| AutomationController.Controller.constructor | components/automation_controller/automation_controller.c:18-30 | not initialised, no outputs, no channels |
| AutomationController.Controller.PrimeEcChannels | components/automation_controller/automation_controller.c:139-155 | the channels are the pin-valid ones of A, B, C in order, and the cursor restarts at the first |
| AutomationController.Controller.NextEcChannel | components/automation_controller/automation_controller.c:157-166 | no channel when there are none; otherwise the channel at the cursor, which then advances by one modulo the count |
| AutomationController.Controller.SetLightingOutput | components/automation_controller/automation_controller.c:81-91 | the relay is written exactly when the state is unknown or differs; afterwards the state is known and equal |
| AutomationController.Controller.UpdateLighting | components/automation_controller/automation_controller.c:93-118 | automatic mode forces the relay off as configured and then sets the light to the schedule or the manual state |
| AutomationController.PhDose | components/automation_controller/automation_controller.c:240-257 | acid above target plus tolerance with valid pins, else base below target minus tolerance with valid pins, each only after its own cooldown and then with its last-dose time set to now; at most one run, and nothing changes otherwise |
| AutomationController.EcDose | components/automation_controller/automation_controller.c:259-272 | below target minus tolerance, with a non-zero duration, after the cooldown and with a channel: the channel at the cursor runs when its pins are valid, the time is set and the cursor steps round-robin; otherwise nothing changes |
| AutomationController.Controller.DosePh | components/automation_controller/automation_controller.c:240-257 | the pump runs appended and the new acid and base times are exactly those of PhDose |
| AutomationController.Controller.DoseEc | components/automation_controller/automation_controller.c:259-272 | the pump runs appended, the new EC time and the cursor are exactly those of EcDose over the primed channels |
| AutomationController.Controller.Init | components/automation_controller/automation_controller.c:168-207 | NULL arguments change nothing; otherwise pins and settings stored, channels primed and lighting updated |
| AutomationController.Controller.ApplySettings | components/automation_controller/automation_controller.c:209-219 | NULL changes nothing; otherwise the settings stored, the channels re-primed and the lighting updated |
| AutomationController.Controller.Update | components/automation_controller/automation_controller.c:221-273 | nothing when uninitialised or without data; otherwise the lighting actions (auto-switch off once, then a relay write when the state differs), followed, with auto dosing on and finite pH and EC, by the PhDose runs and then the EcDose runs, with their dose times and cursor; with dosing off or a non-finite reading only the lighting actions |
| PumpManager.SinceLast | components/pump_manager/pump_manager.c:83-84 | the uint32 difference of now and the last dose time, the plain difference when no wrap occurs |
| PumpManager.FirstHourAlwaysResets | components/pump_manager/pump_manager.c:48-56 | in the first hour after boot the wrapped `current_time - 3600` resets the hourly counter at every check, although no hour has passed |
| PumpManager.AsWrittenAgreesAfterFirstHour | components/pump_manager/pump_manager.c:48-56 | from the first hour on the written test agrees with the intended one |
| PumpManager.HourlyReset | components/pump_manager/pump_manager.c:48-56 | the hourly counter is zeroed exactly when the last dose is more than an hour old; nothing else changes |
| PumpManager.HourlyLimitBlocks | components/pump_manager/pump_manager.c:76-80 | twenty doses within the hour block a further dose |
| PumpManager.MinIntervalBlocks | components/pump_manager/pump_manager.c:83-90 | a pump that has dosed before is refused for ten seconds |
| PumpManager.ErrorStatusBlocks | components/pump_manager/pump_manager.c:93-96 | a pump in ERROR is always refused |
| PumpManager.ClampMs | components/pump_manager/pump_manager.c:182-188 | the run time is raised to the minimum and then lowered to the maximum, and kept when inside |
| PumpManager.DurationMs | components/pump_manager/pump_manager.c:179-188 | the run time is volume over flow in milliseconds, truncated, inside the configured bounds and unchanged when already inside |
| PumpManager.Dosed | components/pump_manager/pump_manager.c:199-213 | a dose adds one to both counters, the volume and the whole seconds run, stamps the time and leaves the pump IDLE |
| PumpManager.DoseStartsInterval | components/pump_manager/pump_manager.c:83-90 | after a dose the same pump is refused for the next ten seconds (with lines 199-203) |
| PumpManager.ResetStats | components/pump_manager/pump_manager.c:247-262 | a reset zeroes every statistic and keeps the status |
| PumpManager.ResetLeavesOnlyStatus | components/pump_manager/pump_manager.c:61-99 | after a reset a dose is refused exactly when the pump is in ERROR (with lines 247-262) |
| PumpManager.Pumps.constructor | components/pump_manager/pump_manager.c:35-37 | zeroed statistics, not initialised, nothing driven |
| PumpManager.Pumps.Init | components/pump_manager/pump_manager.c:104-134 | idempotent; the first call sets every pump IDLE and keeps the rest of its statistics |
| PumpManager.Pumps.CheckSafetyLimits | components/pump_manager/pump_manager.c:61-99 | accepted exactly for a valid index, a volume within 0.1..100 ml and limits that hold after the hourly update, which happens whenever the volume is acceptable |
| PumpManager.Pumps.Dose | components/pump_manager/pump_manager.c:139-217 | INVALID_STATE before init, INVALID_ARG for a bad index, FAIL when unsafe, INVALID_STATE without or with a disabled configuration, INVALID_ARG for a non-positive flow; otherwise the pump runs for the clamped time, the statistics record the dose and the cooldown follows |
| PumpManager.Pumps.GetStatus | components/pump_manager/pump_manager.c:222-227 | the pump's status, ERROR for a bad index |
| PumpManager.Pumps.GetStats | components/pump_manager/pump_manager.c:232-242 | the pump's statistics, INVALID_ARG for a bad index |
| PumpManager.Pumps.Reset | components/pump_manager/pump_manager.c:247-262 | INVALID_ARG for a bad index; otherwise that pump's statistics are reset and the others kept |
| PumpManager.Pumps.EmergencyStop | components/pump_manager/pump_manager.c:267-278 | every pump is stopped in order and set IDLE |
| PumpManager.Pumps.CanDose | components/pump_manager/pump_manager.c:283-293 | false before init or for a bad index; otherwise the safety verdict, with its hourly update |
| PumpManager.Pumps.Test | components/pump_manager/pump_manager.c:298-308 | INVALID_ARG before init or for a bad index; otherwise the pump runs for the given time with no check and no statistics |
| PhEcController.TruncMs | components/ph_ec_controller/ph_ec_controller.c:174-175 | the `(uint32_t)` cast of a non-negative quotient is its floor |
| PhEcController.PumpName | components/ph_ec_controller/ph_ec_controller.c:27-34 | names outside the six pumps read "Unknown" (with lines 280-286) |
| PhEcController.PumpNamesDistinct | components/ph_ec_controller/ph_ec_controller.c:27-34 | every pump has its own name and none is "Unknown" |
| PhEcController.PhDeadbandRunsNothing | components/ph_ec_controller/ph_ec_controller.c:156-162 | inside the dead band no pump runs |
| PhEcController.PhCorrectionChoosesPump | components/ph_ec_controller/ph_ec_controller.c:164-188 | outside the dead band exactly one pump runs, pH DOWN above the target and pH UP otherwise, for a time within its bounds |
| PhEcController.PhDurationMonotone | components/ph_ec_controller/ph_ec_controller.c:173-179 | a larger pH error never gives a shorter run, up to the step limit |
| PhEcController.TruncMonotone | components/ph_ec_controller/ph_ec_controller.c:174-175 | truncation preserves order for non-negative quotients |
| PhEcController.ClampMonotone | components/ph_ec_controller/ph_ec_controller.c:178-179 | the min/max clamp preserves order |
| PhEcController.EcDeadbandRunsNothing | components/ph_ec_controller/ph_ec_controller.c:203-209 | inside the dead band no pump runs |
| PhEcController.EcAboveTargetOnlyWater | components/ph_ec_controller/ph_ec_controller.c:211-224 | above the target only the water pump runs, for a time within its bounds |
| PhEcController.EcBelowTargetNutrients | components/ph_ec_controller/ph_ec_controller.c:225-256 | below the target only the nutrient pumps run, each exactly when its truncated share is positive, in A, B, C order |
| PhEcController.NutrientRunsCover | components/ph_ec_controller/ph_ec_controller.c:243-256 | the nutrient runs are those with a positive time, in A, B, C order |
| PhEcController.NutrientSharesFollowRatios | components/ph_ec_controller/ph_ec_controller.c:230-235 | with equal flow rates a larger ratio never gives a shorter run |
| PhEcController.NutrientTimeBelowMinimum | components/ph_ec_controller/ph_ec_controller.c:230-256 | nutrient times are not clamped: a small share runs for 4 ms, below the pump's minimum |
| PhEcController.Controller.constructor | components/ph_ec_controller/ph_ec_controller.c:15-24 | auto modes off, pH 7.0 and EC 1.0, nothing run |
| PhEcController.Controller.Init | components/ph_ec_controller/ph_ec_controller.c:49-89 | every pump gets its default configuration and name; pH and EC parameters get their defaults |
| PhEcController.Controller.Configs | components/ph_ec_controller/ph_ec_controller.c:15 | six pump configurations |
| PhEcController.Controller.SetPumpConfig | components/ph_ec_controller/ph_ec_controller.c:91-108 | INVALID_ARG for a bad index or NULL; otherwise exactly that pump's configuration is replaced |
| PhEcController.Controller.SetPhParams | components/ph_ec_controller/ph_ec_controller.c:110-126 | INVALID_ARG for NULL; otherwise the pH parameters are replaced and nothing else |
| PhEcController.Controller.SetEcParams | components/ph_ec_controller/ph_ec_controller.c:128-144 | INVALID_ARG for NULL; otherwise the EC parameters are replaced and nothing else |
| PhEcController.Controller.SetAutoMode | components/ph_ec_controller/ph_ec_controller.c:262-278 | both auto-mode flags are set and nothing else changes |
| PhEcController.Controller.UpdateValues | components/ph_ec_controller/ph_ec_controller.c:312-325 | the current pH and EC are stored and nothing else changes |
| PhEcController.Controller.CorrectPh | components/ph_ec_controller/ph_ec_controller.c:146-191 | with auto mode off nothing runs; otherwise the pumps of the pH plan run |
| PhEcController.Controller.CorrectEc | components/ph_ec_controller/ph_ec_controller.c:193-260 | with auto mode off nothing runs; otherwise the pumps of the EC plan run |
| AiController.PhToleranceNoDose | components/ai_controller/ai_controller.c:125 | a pH within 0.1 of the target gives no pH dose |
| AiController.PhDoseOneSidedAndCapped | components/ai_controller/ai_controller.c:125-140 | at most one of pH UP and pH DOWN, UP only below the target and DOWN only above, each at most 50 ml |
| AiController.EcDoseBounds | components/ai_controller/ai_controller.c:145-160 | an EC deficit over 0.1 doses A and B equally up to 30 ml and C up to 15 ml; otherwise no nutrient |
| AiController.HeuristicConfidenceFixed | components/ai_controller/ai_controller.c:163 | the heuristic always reports confidence 0.7 |
| AiController.HeuristicCorrection | components/ai_controller/ai_controller.c:110-170 | INVALID_ARG for NULL; otherwise the heuristic prediction |
| AiController.EvaluateTrend | components/ai_controller/ai_controller.c:225-240 | no verdict with fewer than two samples; otherwise rising exactly when the last pH exceeds the first |
| AiController.FlatHistoryNotUp | components/ai_controller/ai_controller.c:225-240 | a constant pH is never a rising trend |
| AiController.Ai.constructor | components/ai_controller/ai_controller.c:22-29 | not initialised, no model, zero statistics |
| AiController.Ai.Init | components/ai_controller/ai_controller.c:43-79 | idempotent; NULL is INVALID_ARG; otherwise initialised with the configuration and without a model |
| AiController.Ai.Deinit | components/ai_controller/ai_controller.c:84-105 | not initialised and no model; the statistics are kept |
| AiController.Ai.Predict | components/ai_controller/ai_controller.c:175-220 | INVALID_STATE before init, INVALID_ARG for NULL, an all-zero prediction too soon after the last correction; otherwise the heuristic is counted and applied only when its confidence reaches the minimum |
| PidController.Clamp | components/pid_controller/pid_controller.c:60-65 | lowered to the maximum, then raised to the minimum: inside a non-empty range, and the value itself when already inside (with lines 79-84) |
| PidController.ComputeTerms | components/pid_controller/pid_controller.c:51-67 | the error is setpoint minus measured, P is kp times the error, and the kept integral lies within its limits |
| PidController.OutputWithinLimits | components/pid_controller/pid_controller.c:76-84 | the output never leaves the output limits |
| PidController.FirstSampleHasNoDerivative | components/pid_controller/pid_controller.c:70-73 | on the first sample the D term is zero and the previous error plays no part |
| PidController.ProportionalOnly | components/pid_controller/pid_controller.c:51-84 | a pure P controller inside its limits outputs kp times the error |
| PidController.ConstantErrorNoDerivative | components/pid_controller/pid_controller.c:70-73 | with the error unchanged the D term vanishes |
| PidController.StepTerms | components/pid_controller/pid_controller.c:51-91 | the reassignment code computes the PID step |
| PidController.Pid.Recent | components/pid_controller/pid_controller.c:98-102 | the measurement history holds count entries, oldest first |
| PidController.Pid.constructor | components/pid_controller/pid_controller.c:19-35 | a zeroed, uninitialised controller with an empty history |
| PidController.Pid.ClearHistory | components/pid_controller/pid_controller.c:19-35 | the history is empty and every slot zero (with lines 113-127) |
| PidController.Pid.Init | components/pid_controller/pid_controller.c:19-35 | INVALID_ARG for NULL; otherwise zeroed with the configuration kept |
| PidController.Pid.Compute | components/pid_controller/pid_controller.c:40-108 | INVALID_STATE before init, INVALID_ARG for dt at most 0; otherwise the PID step is returned and stored, the integral and previous error kept, the sample counted and the measurement pushed into the 10-entry history |
| PidController.Pid.RecordMeasurement | components/pid_controller/pid_controller.c:98-102 | the measurement is appended to the history, the oldest dropped at 10 |
| PidController.Pid.Reset | components/pid_controller/pid_controller.c:113-127 | INVALID_STATE before init; otherwise integral, previous error, samples, history and last output are zero and the configuration kept |
| PidController.Pid.SetTunings | components/pid_controller/pid_controller.c:132-144 | INVALID_STATE before init; otherwise exactly the three gains change |
| PidController.Pid.SetSetpoint | components/pid_controller/pid_controller.c:149-159 | INVALID_STATE before init; otherwise exactly the setpoint changes |
| PidController.Pid.SetOutputLimits | components/pid_controller/pid_controller.c:164-179 | INVALID_STATE before init; INVALID_ARG when min is not below max; otherwise exactly the limits change |
| PumpPidManager.ConfigOf | components/pump_pid_manager/pump_pid_manager.c:59-68 | the PID configuration takes the stored gains and output limits, setpoint 0 and integral limits ±100 |
| PumpPidManager.Dt | components/pump_pid_manager/pump_pid_manager.c:112-117 | dt is 1 s on the first compute and otherwise the whole seconds since the last one |
| PumpPidManager.SameSecondGivesZeroDt | components/pump_pid_manager/pump_pid_manager.c:112-120 | a second compute in the same second has dt 0, which pid_compute refuses |
| PumpPidManager.Instance.constructor | components/pump_pid_manager/pump_pid_manager.c:20 | a zeroed instance: PID not initialised, never computed, disabled, manual |
| PumpPidManager.Manager.constructor | components/pump_pid_manager/pump_pid_manager.c:20-22 | the manager is not initialised and owns six distinct instances |
| PumpPidManager.Manager.Init | components/pump_pid_manager/pump_pid_manager.c:32-89 | idempotent; FAIL when the configuration cannot be loaded; otherwise every PID is initialised from its stored settings with enabled and auto mode copied |
| PumpPidManager.Manager.Compute | components/pump_pid_manager/pump_pid_manager.c:94-132 | INVALID_ARG before init or for a bad index; INVALID_STATE unless enabled and automatic; otherwise the setpoint becomes the target and, for a positive dt, the PID step is returned and the time and measurement stored only on success |
| PumpPidManager.Manager.Execute | components/pump_pid_manager/pump_pid_manager.c:157-176 | INVALID_ARG for a bad index; success needs a pump configuration, queues a run of that pump for the dose followed by its cooldown, and copies the pump's statistics; timing and mode flags are kept |
| PumpPidManager.Manager.ComputeAndExecute | components/pump_pid_manager/pump_pid_manager.c:137-152 | INVALID_ARG and INVALID_STATE as for compute, with no dose; a refused PID step never doses; after a successful step the pump doses exactly when the output exceeds 0.5 ml, with the output as the dose and the pump's run appended; no dose leaves the pumps untouched and is OK |
| PumpPidManager.Manager.ResetPid | components/pump_pid_manager/pump_pid_manager.c:208-222 | INVALID_ARG before init or for a bad index; otherwise the PID is reset, INVALID_STATE when it was never initialised |
| PumpPidManager.Manager.SetMode | components/pump_pid_manager/pump_pid_manager.c:227-239 | INVALID_ARG before init or for a bad index; otherwise exactly the auto-mode flag changes, the PID, enabled flag, timing, last measurement and statistics being kept |
| PumpPidManager.Manager.SetTunings | components/pump_pid_manager/pump_pid_manager.c:244-254 | INVALID_ARG before init or for a bad index; otherwise the three gains change |
| PumpPidManager.Manager.GetInstance | components/pump_pid_manager/pump_pid_manager.c:259-265 | the instance exactly for an initialised manager and a valid index |
| AdaptivePid.BaseCoefficients | components/adaptive_pid/adaptive_pid.c:219-241 | pH pumps 2.0/0.5/0.1, EC pumps 1.5/0.3/0.05, water 1.0/0.2/0.0 |
| AdaptivePid.AdaptationFactor | components/adaptive_pid/adaptive_pid.c:149-167 | the factor from buffer capacity, then effectiveness, lies within 0.76..1.32 |
| AdaptivePid.FactorMonotoneInCapacity | components/adaptive_pid/adaptive_pid.c:152-158 | a more strongly buffered solution never gets a smaller factor |
| AdaptivePid.FactorAntitoneInEffectiveness | components/adaptive_pid/adaptive_pid.c:161-167 | a more effective system never gets a larger factor |
| AdaptivePid.Adapted | components/adaptive_pid/adaptive_pid.c:136-177 | the base coefficients when adaptation is off or nothing is learned; otherwise each base gain times the factor |
| AdaptivePid.AdaptedWithinBand | components/adaptive_pid/adaptive_pid.c:136-177 | a non-negative adapted gain stays within 0.76 and 1.32 times its base |
| AdaptivePid.LearnCountsAcceptedOnly | components/adaptive_pid/adaptive_pid.c:430-512 | a sample is counted and the capacity marked learned exactly when learning is on and the sample passes the filters; otherwise nothing changes |
| AdaptivePid.LearnSmoothing | components/adaptive_pid/adaptive_pid.c:470-485 | the first accepted sample sets the capacity to the measured one; later ones move it 30% of the way |
| AdaptivePid.LearnKeepsCapacityInRange | components/adaptive_pid/adaptive_pid.c:450-485 | a capacity within 0.1..50 stays within it |
| AdaptivePid.DoseZeroIffAtTarget | components/adaptive_pid/adaptive_pid.c:695-709 | the dose is never negative and is zero exactly at the target |
| AdaptivePid.DefaultDoseRate | components/adaptive_pid/adaptive_pid.c:703-705 | without a learned capacity the dose is 25 ml per unit of error |
| AdaptivePid.RegressionSlotAsWritten | components/adaptive_pid/adaptive_pid.c:82-86 | the slot the least-squares fit reads as written stays inside the ring |
| AdaptivePid.RegressionReadsSlotTwice | components/adaptive_pid/adaptive_pid.c:82-86 | once the ring has wrapped at index 10, samples 0 and 40 both read slot 0 (with lines 114-117) |
| AdaptivePid.RegressionSlot | components/adaptive_pid/adaptive_pid.c:66-131 | the slot of the i-th oldest sample stays inside the ring |
| AdaptivePid.RegressionSlotReadsRingInOrder | components/adaptive_pid/adaptive_pid.c:66-131 | the corrected slots read the ring's samples oldest first, each once |
| AdaptivePid.State.Recent | components/adaptive_pid/adaptive_pid.c:44-53 | the history holds count values, oldest first |
| AdaptivePid.State.constructor | components/adaptive_pid/adaptive_pid.c:215-274 | the initial state: empty history, default capacity and effectiveness, base coefficients, learning and adaptation on, prediction and safe mode off |
| AdaptivePid.State.AddToHistory | components/adaptive_pid/adaptive_pid.c:44-53 | the value is appended to the 50-entry history, the oldest dropped when full, and its slot stamped with the time |
| AdaptivePid.State.Adapt | components/adaptive_pid/adaptive_pid.c:136-177 | the stored coefficients are the adapted ones |
| AdaptivePid.State.Learn | components/adaptive_pid/adaptive_pid.c:430-512 | the learning state takes one learning step, and an accepted sample re-adapts the coefficients |
| AdaptivePid.State.Coefficients | components/adaptive_pid/adaptive_pid.c:514-540 | the base coefficients in safe mode, the adapted ones otherwise |
| AdaptivePid.State.SetLearningMode | components/adaptive_pid/adaptive_pid.c:550-566 | exactly the learning flag changes |
| AdaptivePid.State.SetPredictionMode | components/adaptive_pid/adaptive_pid.c:568-584 | exactly the prediction flag changes |
| AdaptivePid.State.SetAdaptiveMode | components/adaptive_pid/adaptive_pid.c:586-605 | the flag changes and the coefficients are recomputed for the new mode |
| AdaptivePid.State.ResetLearning | components/adaptive_pid/adaptive_pid.c:607-648 | history, capacity, counters, effectiveness, confidence and trends return to their initial values |
| AdaptivePid.State.ClearRing | components/adaptive_pid/adaptive_pid.c:618-622 | both rings are zeroed and the index reset |
| AdaptivePid.State.SetSafeMode | components/adaptive_pid/adaptive_pid.c:650-679 | entering safe mode switches prediction, adaptation and auto-tuning off and gives the base coefficients |
| AdaptivePid.State.Dose | components/adaptive_pid/adaptive_pid.c:681-714 | the dose is never negative, and zero exactly when the value is at the target |
| AdaptivePid.State.HandleFailedPrediction | components/adaptive_pid/adaptive_pid.c:716-751 | one more failure, confidence cut by 20%, predictions off until three hours from now in uint32 seconds |
| AdaptivePid.Controller.constructor | components/adaptive_pid/adaptive_pid.c:20-22 | six distinct pump states, one per pump |
| AdaptivePid.Controller.UpdateHistory | components/adaptive_pid/adaptive_pid.c:276-324 | INVALID_ARG exactly for a bad index; otherwise the value is appended to that pump's history |
| AdaptivePid.Controller.LearnBufferCapacity | components/adaptive_pid/adaptive_pid.c:430-512 | INVALID_ARG exactly for a bad index; otherwise that pump takes one learning step |
| AdaptivePid.Controller.GetCoefficients | components/adaptive_pid/adaptive_pid.c:514-540 | INVALID_ARG exactly for a bad index; the base coefficients in safe mode, else the adapted ones |
| AdaptivePid.Controller.CalculateDose | components/adaptive_pid/adaptive_pid.c:681-714 | INVALID_ARG exactly for a bad index; otherwise the dose, zero exactly at the target |
| AdaptivePid.Controller.SetSafeMode | components/adaptive_pid/adaptive_pid.c:650-679 | INVALID_ARG exactly for a bad index; safe mode on turns adaptation and prediction off and uses the base coefficients |
| AdaptivePid.Controller.SetLearningMode | components/adaptive_pid/adaptive_pid.c:550-566 | INVALID_ARG exactly for a bad index; otherwise the learning flag is set |
| AdaptivePid.Controller.SetPredictionMode | components/adaptive_pid/adaptive_pid.c:568-584 | INVALID_ARG exactly for a bad index; otherwise the prediction flag is set |
| AdaptivePid.Controller.SetAdaptiveMode | components/adaptive_pid/adaptive_pid.c:586-605 | INVALID_ARG exactly for a bad index; otherwise the flag is set and the coefficients recomputed |
| AdaptivePid.Controller.ResetLearning | components/adaptive_pid/adaptive_pid.c:607-648 | INVALID_ARG exactly for a bad index; otherwise that pump's history and learning are reset |
| AdaptivePid.Controller.HandleFailedPrediction | components/adaptive_pid/adaptive_pid.c:716-751 | INVALID_ARG exactly for a bad index; otherwise the failure is counted and predictions paused for three hours |
| AdaptivePid.Controller.GetState | components/adaptive_pid/adaptive_pid.c:542-548 | the pump's state exactly for a valid index |
| SensorManager.UpdateKeepsGuardOk | components/sensor_manager/sensor_manager.c:66-110 | every update counts one read and exactly one of a success and a failure, keeping the guard's counts consistent |
| SensorManager.SuccessReenables | components/sensor_manager/sensor_manager.c:77-82 | a success clears the error count and re-enables the sensor at once |
| SensorManager.TenthFailureDisables | components/sensor_manager/sensor_manager.c:87-95 | the tenth consecutive failure switches the sensor off for the next 60 s and restarts the count |
| SensorManager.FailuresBelowTenCount | components/sensor_manager/sensor_manager.c:87-95 | fewer than ten failures from a clean count only count up and do not switch the sensor off |
| SensorManager.TenFailuresDisable | components/sensor_manager/sensor_manager.c:87-95 | ten failures from a clean count switch the sensor off for a minute |
| SensorManager.HealthRule | components/sensor_manager/sensor_manager.c:98-109 | with 50 reads or more the sensor is healthy exactly when at least 80% succeeded; before that a failure makes it unhealthy |
| SensorManager.ApplyCalibration | components/sensor_manager/sensor_manager.c:115-127 | an uncalibrated sensor's value is passed through |
| SensorManager.OffsetCalibration | components/sensor_manager/sensor_manager.c:510-532 | calibration stores a calibrated offset with scale 1 |
| SensorManager.CalibrationRoundTrip | components/sensor_manager/sensor_manager.c:115-127 | after calibrating, the measured value reads as the actual one and every value moves by the same offset (with lines 510-532) |
| SensorManager.FirstAccepted | components/sensor_manager/sensor_manager.c:152-157 | the retry result is an acceptable attempt (with lines 171-180) |
| SensorManager.FirstAcceptedSound | components/sensor_manager/sensor_manager.c:152-157 | the retry returns an attempt that was made and is acceptable, and nothing exactly when no attempt is acceptable (with lines 171-180) |
| SensorManager.PhRangeChecked | components/sensor_manager/sensor_manager.c:173 | an accepted pH reading lies within 0..14 |
| SensorManager.ReadWithRetry | components/sensor_manager/sensor_manager.c:145-238 | at most three attempts, and the first acceptable one wins |
| SensorManager.Manager.constructor | components/sensor_manager/sensor_manager.c:39-57 | not initialised |
| SensorManager.Manager.Init | components/sensor_manager/sensor_manager.c:244-274 | idempotent; the first call zeroes statistics, guards and cache and gives every sensor the default calibration |
| SensorManager.Manager.ResetTables | components/sensor_manager/sensor_manager.c:255-265 | every guard zeroed and every calibration the default |
| SensorManager.Manager.UpdateStats | components/sensor_manager/sensor_manager.c:66-110 | the sensor's guard takes one update; the others are unchanged |
| SensorManager.Manager.IsSensorEnabled | components/sensor_manager/sensor_manager.c:132-140 | enabled exactly for a valid sensor whose switch-off time has passed |
| SensorManager.Manager.ReadSensor | components/sensor_manager/sensor_manager.c:145-238 | a read succeeds exactly when the sensor is enabled (CCS811 always) and an attempt is acceptable, giving that attempt |
| SensorManager.Manager.ReadCounted | components/sensor_manager/sensor_manager.c:283-330 | the read's outcome is counted for the sensor and for its partner reading (humidity, TVOC); no other guard changes |
| SensorManager.Manager.ReadSensors | components/sensor_manager/sensor_manager.c:283-330 | each sensor succeeds exactly when its read rule accepts an attempt within the retry count, giving that attempt's value, and each guard counts its sensor's outcome (humidity with temperature, TVOC with CO2) |
| SensorManager.Manager.ReadAll | components/sensor_manager/sensor_manager.c:276-338 | INVALID_STATE before init; otherwise every sensor read and counted, the validity flags set from the results, each value the accepted reading (pH and EC calibrated) or the previous cached one, and OK exactly when one sensor succeeded |
| SensorManager.Manager.ReadPh | components/sensor_manager/sensor_manager.c:357-379 | INVALID_STATE before init; otherwise OK exactly when the read succeeded, with a calibrated value in range cached; the read is counted either way |
| SensorManager.Manager.IsSensorHealthy | components/sensor_manager/sensor_manager.c:484-491 | healthy exactly for an initialised manager and a valid sensor whose statistics say so |
| SensorManager.Manager.Calibrate | components/sensor_manager/sensor_manager.c:510-556 | INVALID_STATE before init; otherwise the offset calibration is stored, so the measured value reads as the actual one; other sensors unchanged |
| SensorManager.Manager.GetCalibration | components/sensor_manager/sensor_manager.c:558-573 | the calibration exactly for an initialised manager and a valid sensor |
| SensorManager.Manager.ResetStats | components/sensor_manager/sensor_manager.c:575-592 | INVALID_ARG before init or for a bad sensor; otherwise the statistics are zeroed and the error guard kept |
| SystemTasks.RegisterRecovery | components/system_tasks/system_tasks.c:129-147 | the latch and the counter are cleared and the event count kept |
| SystemTasks.AlarmLatchesOnce | components/system_tasks/system_tasks.c:106-127 | from a cleared sensor, n failures latch the alarm exactly when n is at least 5, counting one event |
| SystemTasks.LatchedRaisesNothing | components/system_tasks/system_tasks.c:114-126 | a latched alarm is not raised again |
| SystemTasks.UpdateSuccess | components/system_tasks/system_tasks.c:544-560 | the streak and the fault are cleared and the total kept |
| SystemTasks.UpdateFailureRule | components/system_tasks/system_tasks.c:562-580 | a failure counts once in the total and the streak, and the fault is active exactly when it was or the streak reached five |
| SystemTasks.ValidFlags | components/system_tasks/system_tasks.c:582-689 | the valid flags say exactly which sensors have a value |
| SystemTasks.ReadingsOf | components/system_tasks/system_tasks.c:582-689 | the readings have one entry per sensor |
| SystemTasks.ReadingsMatchInputs | components/system_tasks/system_tasks.c:582-689 | exactly the sensors that read a value are valid, and some is valid exactly when something was read |
| SystemTasks.Tasks.constructor | components/system_tasks/system_tasks.c:69-78 | no data, no configuration, no cycle, no notice, every fault and streak clear |
| SystemTasks.Tasks.RegisterSensorFailure | components/system_tasks/system_tasks.c:106-127 | an out-of-range index is ignored; otherwise the failure is counted and an alarm raised exactly when it latches |
| SystemTasks.Tasks.RegisterSensorRecovery | components/system_tasks/system_tasks.c:129-147 | a recovery notice exactly when the alarm was latched; the latch and counter are cleared |
| SystemTasks.Tasks.Target | components/system_tasks/system_tasks.c:501-516 | the configured target when the configuration is valid, else the default |
| SystemTasks.Tasks.LastValue | components/system_tasks/system_tasks.c:527-542 | the target until a cycle has produced data, then the last value |
| SystemTasks.Tasks.Fallback | components/system_tasks/system_tasks.c:518-525 | the fallback is the last value |
| SystemTasks.StreakSuccessNotice | components/system_tasks/system_tasks.c:550-556 | the INFO "recovered" notice is sent exactly when the streak's fault was active |
| SystemTasks.StreakWarningOncePerFault | components/system_tasks/system_tasks.c:570-578 | the WARNING is sent exactly by the failure that switches the fault on, and the next failure sends none |
| SystemTasks.ReadsKeepStreakFaultOff | components/system_tasks/system_tasks.c:582-689 | a read only clears a streak fault, so one that is off stays off and no streak recovery notice is sent |
| SystemTasks.Tasks.SensorUpdateSuccess | components/system_tasks/system_tasks.c:544-560 | that sensor's streak takes a success, and the recovery notice is appended when its fault was active; the others are unchanged |
| SystemTasks.Tasks.SensorUpdateFailure | components/system_tasks/system_tasks.c:562-580 | that sensor's streak takes a failure, and the WARNING is appended when this failure switches the fault on; the others are unchanged |
| SystemTasks.NoticeOf | components/system_tasks/system_tasks.c:106-147 | at most one notice: for a success a recovery notice exactly when the alarm was latched, for a failure an alarm exactly when this failure latches it |
| SystemTasks.Tasks.Account | components/system_tasks/system_tasks.c:582-689 | a value clears the sensor's alarm (and its streak), no value counts a failure; the streak's recovery notice and then the alarm's notice are appended; no other sensor changes |
| SystemTasks.Tasks.ReadAllSensors | components/system_tasks/system_tasks.c:582-689 | INVALID_STATE without the interface and no notice; otherwise every sensor read once, OK exactly when something was read, each sensor's alarm updated by its result and the notices of the six sensors appended in order, pH to CO2 with their streak recoveries first; no streak fault is switched on |
| SystemTasks.Tasks.FinishCycle | components/system_tasks/system_tasks.c:366-410 | a good cycle stores the data and counts a success, a bad one invalidates it and counts a failure; the total and the minimum and maximum cycle times are updated |
| SystemTasks.Tasks.ReportedMinCycle | components/system_tasks/system_tasks.c:931 | the printed minimum is 0 while no cycle was recorded, else the recorded minimum |
| TaskScheduler.StatusName | components/task_scheduler/task_scheduler.c:160-168 | "UNKNOWN" exactly for a value outside the four statuses |
| TaskScheduler.StatusNamesDistinct | components/task_scheduler/task_scheduler.c:160-168 | the four statuses have four different names |
| TaskScheduler.NewTask | components/task_scheduler/task_scheduler.c:88-96 | a new task is enabled, pending, due at once, never run, with its interval in milliseconds |
| TaskScheduler.Processed | components/task_scheduler/task_scheduler.c:119-148 | a due task records the run time, is next due one interval later and is completed; a task not due (or disabled) is unchanged |
| TaskScheduler.Pass | components/task_scheduler/task_scheduler.c:116-149 | a pass treats every task of the table by itself |
| TaskScheduler.PassCallsDueTasks | components/task_scheduler/task_scheduler.c:116-149 | a pass calls exactly the due tasks' callbacks, once each, in table order, with or without an event callback |
| TaskScheduler.SecondPassIsIdle | components/task_scheduler/task_scheduler.c:124 | with positive intervals a second pass at the same time runs nothing and changes nothing (with line 141) |
| TaskScheduler.Scheduler.constructor | components/task_scheduler/task_scheduler.c:29-46 | an empty, stopped table with no event callback |
| TaskScheduler.Scheduler.Start | components/task_scheduler/task_scheduler.c:48-58 | OK; running, the table unchanged |
| TaskScheduler.Scheduler.Stop | components/task_scheduler/task_scheduler.c:60-70 | OK; stopped, the table unchanged |
| TaskScheduler.Scheduler.SetEventCallback | components/task_scheduler/task_scheduler.c:155-158 | the event callback replaced; nothing else changes |
| TaskScheduler.Scheduler.AddTask | components/task_scheduler/task_scheduler.c:72-103 | INVALID_ARG for no callback, NO_MEM with 20 tasks, otherwise OK with the new task appended |
| TaskScheduler.Scheduler.Process | components/task_scheduler/task_scheduler.c:105-153 | OK; nothing while stopped, otherwise the table becomes one pass and the RUNNING/COMPLETED events of the due tasks are reported in order |
| ErrorHandler.Counted | components/error_handler/error_handler.c:145-162 | a report adds one to the total and one to the counter of its level; an unknown level only to the total |
| ErrorHandler.CountedKeepsTotalBound | components/error_handler/error_handler.c:145-162 | the classified counters never overtake the total |
| ErrorHandler.TypeOf | components/error_handler/error_handler.c:201-219 | WARNING, ERROR and CRITICAL give their own notification type, every other level INFO |
| ErrorHandler.PriorityOf | components/error_handler/error_handler.c:201-219 | ERROR is high, CRITICAL urgent, everything else normal priority |
| ErrorHandler.SourceOf | components/error_handler/error_handler.c:222-236 | sensor, pump and relay errors name their source, all others the system |
| ErrorHandler.PopupTimeout | components/error_handler/error_handler.c:52-58 | 10 s for CRITICAL, 5 s for ERROR and above, 3 s below |
| ErrorHandler.PopupTimeoutMonotone | components/error_handler/error_handler.c:52-58 | a more severe level never gets a shorter popup |
| ErrorHandler.NotificationText | components/error_handler/error_handler.c:239-243 | the notification text fits its 160-byte buffer and is "component: message" when it fits |
| ErrorHandler.SensorTaskDefers | components/error_handler/error_handler.c:62-64 | any task whose name contains "sensor" defers its popup |
| ErrorHandler.MainTaskShowsDirectly | components/error_handler/error_handler.c:62-64 | the main task shows popups directly |
| ErrorHandler.RouteOf | components/error_handler/error_handler.c:39-86 | a popup is skipped when popups are off or LVGL is down, shown directly from other tasks, and queued from sensor, i2c and system tasks unless the 10-entry queue is full |
| ErrorHandler.Handler.constructor | components/error_handler/error_handler.c:20-34 | not initialised, popups on, no callback, zero statistics |
| ErrorHandler.Handler.Init | components/error_handler/error_handler.c:88-115 | OK; a second call changes nothing, the first sets the popup switch |
| ErrorHandler.Handler.Report | components/error_handler/error_handler.c:117-256 | INVALID_STATE before init, INVALID_ARG for a missing component or format; otherwise the report is counted, a notification sent from WARNING up, a popup routed from ERROR up and the callback given the record |
| ErrorHandler.Handler.RegisterCallback | components/error_handler/error_handler.c:258-263 | OK; the callback replaced |
| ErrorHandler.Handler.SetPopup | components/error_handler/error_handler.c:265-270 | OK; the popup switch set |
| ErrorHandler.Handler.GetStats | components/error_handler/error_handler.c:272-290 | INVALID_STATE before init; otherwise the four counters |
| ErrorHandler.Handler.ClearStats | components/error_handler/error_handler.c:292-307 | INVALID_STATE before init; otherwise every counter zero |
| ErrorHandler.Handler.ProcessQueue | components/error_handler/error_handler.c:358-377 | INVALID_STATE before init, NOT_FOUND with an empty queue, otherwise the oldest deferred popup is shown and removed |
| ErrorHandler.CategoryName | components/error_handler/error_handler.c:309-335 | "UNKNOWN" exactly for a value past OTHER |
| ErrorHandler.LevelName | components/error_handler/error_handler.c:337-353 | "UNKNOWN" exactly for a value past CRITICAL |
| ErrorHandler.CategoryNamesDistinct | components/error_handler/error_handler.c:309-335 | different known categories have different names |
| PopupScreen.CooldownWindow | components/lvgl_ui/screens/popup_screen.c:90-98 | a close suppresses notifications for exactly the next 30 s, unless nothing was ever closed |
| PopupScreen.ErrorRule | components/lvgl_ui/screens/popup_screen.c:133-150 | errors below CRITICAL obey the notification rule; critical errors are never suppressed |
| PopupScreen.ErrorLooksLikeItsNotification | components/lvgl_ui/screens/popup_screen.c:480-527 | an error popup has the colour and icon of the notification the error handler makes of the same error |
| PopupScreen.ErrorColorsDistinct | components/lvgl_ui/screens/popup_screen.c:492-496 | the five error levels have five different colours |
| PopupScreen.PopupText | components/lvgl_ui/screens/popup_screen.c:532-545 | a notification shows its message, an error its component, message and "Код:" code on three lines |
| PopupScreen.PopupTextKeepsCode | components/lvgl_ui/screens/popup_screen.c:538-540 | the error code can be read back from the popup text |
| PopupScreen.Popup.constructor | components/lvgl_ui/screens/popup_screen.c:30-34 | no popup, never closed, nothing requested |
| PopupScreen.Popup.Close | components/lvgl_ui/screens/popup_screen.c:193-201 | the close time is recorded and the screen goes back |
| PopupScreen.Popup.ShowNotification | components/lvgl_ui/screens/popup_screen.c:78-121 | a popup is requested exactly for a notification while no popup is open and no cooldown runs |
| PopupScreen.Popup.ShowError | components/lvgl_ui/screens/popup_screen.c:126-188 | a popup is requested exactly when the error rule allows it, with an OK button from ERROR up; a critical error clears the cooldown and closes an open popup |
| PopupScreen.Popup.Create | components/lvgl_ui/screens/popup_screen.c:206-285 | the popup exists with a blank configuration |
| PopupScreen.Popup.OnShow | components/lvgl_ui/screens/popup_screen.c:290-384 | INVALID_ARG without a popup or user data; the first call takes the configuration and sets colour, icon, text, button and close timer; a repeated call changes nothing |
| PopupScreen.Popup.OnHide | components/lvgl_ui/screens/popup_screen.c:389-426 | the popup is gone, its configuration and timer cleared |
| PopupScreen.Popup.OkButton | components/lvgl_ui/screens/popup_screen.c:431-454 | a click, press or ENTER closes the popup and starts the cooldown; other events change nothing |
| PopupScreen.Popup.CloseTimer | components/lvgl_ui/screens/popup_screen.c:459-475 | the timer goes back without starting the cooldown |
| PopupScreen.NotificationRepeatNotIgnored | components/lvgl_ui/screens/popup_screen.c:299 | a popup already configured as a notification passes the repeat check again, because the notification type is 0 |
| NotificationScreen.CriticalNeverSuppressed | components/lvgl_ui/screens/notification_screen.c:522-534 | a critical error in the queue is never dropped by the cooldown |
| NotificationScreen.SuppressionAgreesWithPopup | components/lvgl_ui/screens/notification_screen.c:504-528 | with the default 30 s cooldown the screen drops exactly what the popup screen would suppress |
| NotificationScreen.ErrorLooksLikeItsNotification | components/lvgl_ui/screens/notification_screen.c:423-464 | an error shows the colour and icon of the notification the error handler makes of it |
| NotificationScreen.TextAgreesWithPopup | components/lvgl_ui/screens/notification_screen.c:469-479 | the screen words a notification or an error exactly as the popup does |
| NotificationScreen.Screen.constructor | components/lvgl_ui/screens/notification_screen.c:53-59 | not registered, an empty queue, never closed, a 30 s cooldown |
| NotificationScreen.Screen.Register | components/lvgl_ui/screens/notification_screen.c:77-111 | registered with a fresh queue and no cooldown running |
| NotificationScreen.Screen.Enqueue | components/lvgl_ui/screens/notification_screen.c:138-142 | an item is queued while the 5-entry queue has room and dropped otherwise (with lines 170-174) |
| NotificationScreen.Screen.Show | components/lvgl_ui/screens/notification_screen.c:116-143 | a notification is queued when it is given, the screen is registered and the queue has room; nothing else changes |
| NotificationScreen.Screen.ShowError | components/lvgl_ui/screens/notification_screen.c:148-176 | an error is queued when it is given, the screen is registered and the queue has room; nothing else changes |
| NotificationScreen.Screen.SetCooldown | components/lvgl_ui/screens/notification_screen.c:181-185 | the cooldown is replaced |
| NotificationScreen.Screen.ProcessQueue | components/lvgl_ui/screens/notification_screen.c:486-559 | INVALID_STATE unregistered, NOT_FOUND when empty; otherwise the oldest item is removed and either dropped by the cooldown with OK or shown with screen_show's result, a critical error clearing the close time |
| NotificationScreen.Screen.Create | components/lvgl_ui/screens/notification_screen.c:190-259 | the UI exists with cleared parameters and no timer |
| NotificationScreen.Screen.OnShow | components/lvgl_ui/screens/notification_screen.c:291-346 | INVALID_ARG without user data, INVALID_STATE without UI; otherwise the parameters are taken and colour, icon, text and close timer set from them |
| NotificationScreen.Screen.OnHide | components/lvgl_ui/screens/notification_screen.c:351-382 | the timer and the UI are released |
| NotificationScreen.Screen.OkButton | components/lvgl_ui/screens/notification_screen.c:387-404 | only a click closes, recording the close time and returning to the parent |
| NotificationScreen.Screen.CloseTimer | components/lvgl_ui/screens/notification_screen.c:409-418 | the timer returns to the parent without starting the cooldown |
| EncoderValueEdit.TruncToInt | components/lvgl_ui/widgets/encoder_value_edit.c:40-42 | the (int) cast truncates toward zero |
| EncoderValueEdit.DisplayOf | components/lvgl_ui/widgets/encoder_value_edit.c:30-51 | a whole number exactly when there are no decimals, the truncated value when there is no unit either |
| EncoderValueEdit.Clamp | components/lvgl_ui/widgets/encoder_value_edit.c:208-209 | a value below the minimum becomes the minimum, above the maximum the maximum, and one within the limits is kept |
| EncoderValueEdit.ClampIdempotent | components/lvgl_ui/widgets/encoder_value_edit.c:208-209 | limiting twice is limiting once |
| EncoderValueEdit.Stepped | components/lvgl_ui/widgets/encoder_value_edit.c:87-113 | only UP and DOWN while editing change the value, by one step and only when the result stays within the limit |
| EncoderValueEdit.SteppingStaysInRange | components/lvgl_ui/widgets/encoder_value_edit.c:91-106 | a value within the limits never leaves them by stepping |
| EncoderValueEdit.UpThenDownRestores | components/lvgl_ui/widgets/encoder_value_edit.c:91-106 | UP then DOWN with room to move restores the value |
| EncoderValueEdit.Editor.constructor | components/lvgl_ui/widgets/encoder_value_edit.c:132-188 | the editor takes the initial value as given, the limits, step, decimals and a truncated unit, and is not editing |
| EncoderValueEdit.Editor.Handle | components/lvgl_ui/widgets/encoder_value_edit.c:71-116 | a click or press toggles editing, a key steps the value and ENTER leaves editing, any other event changes nothing; the display is redrawn exactly on a toggle, on ENTER and on a step that moved, else kept |
| EncoderValueEdit.Editor.Set | components/lvgl_ui/widgets/encoder_value_edit.c:200-213 | the value becomes the clamped argument and the display shows it |
| Encoder.ButtonStep | components/encoder/encoder.c:133-194 | pressing records the press time; releasing reports a press with its duration and a release, or only a release after a long press; holding reports one long press once the duration is reached |
| Encoder.RotationEvents | components/encoder/encoder.c:198-211 | a non-zero count becomes one clockwise or counter-clockwise event with its magnitude, a zero count none |
| Encoder.SendAll | components/encoder/encoder.c:158-209 | events go into the 10-entry queue in order while it has room, and the queue never exceeds 10 |
| Encoder.OneLongPressPerPress | components/encoder/encoder.c:180-194 | however long the button is held a press reports at most one long press |
| Encoder.Encoder.constructor | components/encoder/encoder.c:13-32 | no pins, a 1 s long-press duration, no queue, button idle |
| Encoder.Encoder.SetPins | components/encoder/encoder.c:39-44 | the three pins are stored |
| Encoder.Encoder.SetLongPressDuration | components/encoder/encoder.c:46-49 | the long-press duration is stored |
| Encoder.Encoder.Init | components/encoder/encoder.c:56-119 | nothing unless all three pins are set; otherwise an empty queue and a cleared counter |
| Encoder.Encoder.Turn | components/encoder/encoder.c:76-97 | the pulse counter moves with the shaft |
| Encoder.Encoder.Poll | components/encoder/encoder.c:130-219 | one pass updates the button, clears the counter and queues the button and rotation events when there is a queue |
| Xpt2046.Register | components/xpt2046/xpt2046.c:120-170 | a reading is the 12 bits above the three low bits of the response, 0 for a failed transfer, never above 4095 |
| Xpt2046.RegisterIgnoresLowBits | components/xpt2046/xpt2046.c:166 | the three low bits of the second byte do not change the reading |
| Xpt2046.TouchedWindow | components/xpt2046/xpt2046.c:186-212 | a touch is accepted exactly when Z1 lies strictly between 150 and 3500, Z2 between 10 and 3500, and they differ by at most 1000 |
| Xpt2046.MapAxis | components/xpt2046/xpt2046.c:272-283 | a clamped, scaled coordinate always lies on the panel |
| Xpt2046.MapAxisEdges | components/xpt2046/xpt2046.c:272-283 | the calibration window's lower edge maps to 0 and its upper edge to the last pixel |
| Xpt2046.MapAxisMonotone | components/xpt2046/xpt2046.c:272-281 | a point further along the panel never maps to a smaller coordinate |
| Xpt2046.EqualBoundsDivideByZero | components/xpt2046/xpt2046.c:278-279 | calibrating with equal bounds makes the scaling divide by zero (with lines 317-328) |
| Xpt2046.Touchscreen.constructor | components/xpt2046/xpt2046.c:16-31 | no device, the default calibration, no stuck readings and no last point |
| Xpt2046.Touchscreen.Attach | components/xpt2046/xpt2046.c:39-118 | the device is attached exactly when adding it succeeded; calibration and touch state are kept |
| Xpt2046.Touchscreen.Calibrate | components/xpt2046/xpt2046.c:317-328 | bounds are accepted exactly when each axis has a non-empty window, and then stored |
| Xpt2046.Touchscreen.IsTouched | components/xpt2046/xpt2046.c:172-218 | touched exactly when a device is attached and Z1, Z2 lie in the accepted window |
| Xpt2046.Touchscreen.Stuck | components/xpt2046/xpt2046.c:248-266 | a stuck reading is counted; below ten in a row the last valid point is returned if there is one, from ten on no touch (with lines 285-302) |
| Xpt2046.Touchscreen.ReadTouch | components/xpt2046/xpt2046.c:220-315 | no touch without outputs or pressure (clearing the stuck count); a good reading is mapped onto the panel and remembered; a stuck raw value or the mapped far corner counts a stuck reading and answers the last point below ten in a row, else no touch; every returned point lies on the panel |
| Bits.Bit | components/trema_relay/trema_relay.c:175 | a bit of a register byte is 0 or 1 |
| Bits.WrittenChangesOnlyItsBit | components/trema_relay/trema_relay.c:104-109 | writing a channel sets its bit to the value written and leaves every other bit alone |
| TremaRelay.MaxChannel | components/trema_relay/trema_relay.c:92 | the last channel is 3 on the 4-channel SSR (model 0x0B) and 1 on every other model (with lines 143, 292) |
| TremaRelay.PayloadNamesOneChannel | components/trema_relay/trema_relay.c:119-130 | the payload names exactly the written channel, in the high nibble to switch it on and the low nibble to switch it off |
| TremaRelay.ClearedBits | components/trema_relay/trema_relay.c:299-302 | switching channels 0 to n-1 off clears exactly those bits (with lines 321-323) |
| TremaRelay.OffWrites | components/trema_relay/trema_relay.c:299-302 | switching n channels off writes one "off" payload per channel, in channel order (with lines 321-323) |
| TremaRelay.NextChannel | components/trema_relay/trema_relay.c:312 | the auto-switch moves to the next channel and wraps from the last to 0 |
| TremaRelay.Relay.constructor | components/trema_relay/trema_relay.c:10-31 | not initialised, no stub, model 0, every bit off, watchdog and auto-switch off |
| TremaRelay.Relay.Init | components/trema_relay/trema_relay.c:33-85 | initialised exactly when the model byte was read and is 0x0A, 0x0B or 0x0E; otherwise stub values, after probing the digital register for an unknown model |
| TremaRelay.Relay.DigitalWrite | components/trema_relay/trema_relay.c:87-138 | a channel past the model's last or an unready relay changes nothing; otherwise the channel's bit is written and, off stub, the payload sent |
| TremaRelay.Relay.DigitalRead | components/trema_relay/trema_relay.c:140-176 | 0 for a bad channel, an unready relay, stub values or a failed transfer; otherwise the channel's bit of the register read |
| TremaRelay.Relay.EnableWdt | components/trema_relay/trema_relay.c:178-211 | accepted exactly for a 1..254 s timeout on a ready relay whose write succeeded (always under stub), which then records it |
| TremaRelay.Relay.DisableWdt | components/trema_relay/trema_relay.c:213-240 | accepted exactly on a ready relay whose write succeeded; the watchdog is then off with timeout 0 |
| TremaRelay.Relay.ResetWdt | components/trema_relay/trema_relay.c:242-271 | true exactly on a ready relay with the watchdog off, under stub, or with the write succeeding; the recorded timeout is rewritten |
| TremaRelay.Relay.AutoSwitch | components/trema_relay/trema_relay.c:329-372 | enabling starts the task when it can be created, disabling stops it, an unready relay changes nothing |
| TremaRelay.Relay.AllOff | components/trema_relay/trema_relay.c:319-323 | every channel of the relay is switched off |
| TremaRelay.Relay.AutoSwitchRound | components/trema_relay/trema_relay.c:296-317 | a round switches every channel off, then the current one on, and names the next |
| TremaRelay.RoundLeavesOneChannelOn | components/trema_relay/trema_relay.c:296-317 | after a round exactly the chosen channel is on |
| TremaExpander.PulledKeepsPullsDisjoint | components/trema_expander/trema_expander.c:116-130 | setting a pull sets the pin's pull-up or pull-down bit as the type says, clears the other, leaves other pins alone and never lets a pin have both |
| TremaExpander.LittleEndian | components/trema_expander/trema_expander.c:322 | the analog value made from two bytes, low byte first, fits 16 bits |
| TremaExpander.LowByte | components/trema_expander/trema_expander.c:340 | the low byte sent is a byte |
| TremaExpander.HighByte | components/trema_expander/trema_expander.c:341 | the high byte sent is a byte |
| TremaExpander.FrequencyBytesRoundTrip | components/trema_expander/trema_expander.c:339-341 | the frequency bytes read back low byte first give the frequency |
| TremaExpander.LittleEndianBytes | components/trema_expander/trema_expander.c:322 | the bytes of a value read back are the bytes that would be sent for it (with lines 340-341) |
| TremaExpander.Expander.constructor | components/trema_expander/trema_expander.c:10-24 | not initialised, no stub, every register zero |
| TremaExpander.Expander.Init | components/trema_expander/trema_expander.c:26-57 | initialised exactly when the model byte was read back as 0x07; any failure switches to stub values |
| TremaExpander.Expander.PinMode | components/trema_expander/trema_expander.c:59-101 | for pins 0..7 on a ready expander the pin's direction and type bits are written and, off stub, both registers sent; otherwise nothing changes |
| TremaExpander.Expander.PinPull | components/trema_expander/trema_expander.c:103-148 | for pins 0..7 on a ready expander the pulls are updated and, off stub, both registers sent; otherwise nothing changes |
| TremaExpander.Expander.PinOutScheme | components/trema_expander/trema_expander.c:150-180 | the pin's output-mode bit is set exactly for open drain and, off stub, the register sent |
| TremaExpander.Expander.DigitalWrite | components/trema_expander/trema_expander.c:182-216 | the pin's bit is written and, off stub, the pin alone named to the WRITE_HIGH or WRITE_LOW register |
| TremaExpander.Expander.DigitalRead | components/trema_expander/trema_expander.c:218-253 | 0 for a bad pin, an unready expander, stub values or a failed transfer; otherwise the pin's bit of the register read |
| TremaExpander.Expander.AnalogWrite | components/trema_expander/trema_expander.c:255-286 | values above 4095 are rejected; otherwise the pin is written high for any non-zero value, low for zero |
| TremaExpander.Expander.AnalogRead | components/trema_expander/trema_expander.c:288-323 | 0 for a bad pin, an unready expander, stub values or a failed transfer; otherwise the two bytes of the pin's analog register, low byte first |
| TremaExpander.Expander.FreqPwm | components/trema_expander/trema_expander.c:325-343 | on an initialised expander off stub the frequency is sent low byte first; otherwise nothing is sent |
| PhScreen.Adopted | components/lvgl_ui/ph_screen.c:121-151 | a load replaces every stored parameter and keeps the current reading; with nothing stored nothing changes |
| PhScreen.WithPointSetsOnlyThatPoint | components/lvgl_ui/ph_screen.c:737-764 | setting calibration point k changes point k to the given reference and reading and nothing else |
| PhScreen.BufferFor | components/lvgl_ui/ph_screen.c:261 | the Next button records buffer pH 4.0 at step 1, 7.0 at step 2 and 10.0 after |
| PhScreen.CalibrationRecordsThreeBuffers | components/lvgl_ui/ph_screen.c:255-280 | three Next presses from step 1 store the three buffers against the reading and change no setting (with lines 737-764) |
| PhScreen.NextStep | components/lvgl_ui/ph_screen.c:264 | the step is a byte and counts up by one |
| PhScreen.SaveThenLoadChangesNothing | components/lvgl_ui/ph_screen.c:84-151 | loading right after a successful save leaves the parameters as they were |
| PhScreen.Screens.constructor | components/lvgl_ui/ph_screen.c:41-78 | the default parameters, step 0, no screen loaded, no close callback |
| PhScreen.Screens.Save | components/lvgl_ui/ph_screen.c:84-119 | an error when NVS cannot be opened; otherwise the commit's result, storing the parameters when it succeeds |
| PhScreen.Screens.Load | components/lvgl_ui/ph_screen.c:121-151 | an error when NVS cannot be opened or holds nothing; otherwise OK with the stored parameters adopted |
| PhScreen.Screens.Init | components/lvgl_ui/ph_screen.c:820-838 | OK; the stored parameters when the load succeeds, otherwise the defaults are saved |
| PhScreen.Screens.GetParams | components/lvgl_ui/ph_screen.c:157-162 | INVALID_ARG without a destination, otherwise the parameters |
| PhScreen.Screens.SetParams | components/lvgl_ui/ph_screen.c:164-174 | INVALID_ARG without parameters; otherwise everything but the current reading is replaced and saved |
| PhScreen.Screens.UpdateCurrentValue | components/lvgl_ui/ph_screen.c:176-195 | only the current reading changes |
| PhScreen.Screens.CalibrationStart | components/lvgl_ui/ph_screen.c:730-735 | the step returns to 0 |
| PhScreen.Screens.SetPoint | components/lvgl_ui/ph_screen.c:737-764 | INVALID_ARG outside points 1..3; otherwise that point takes the reference and the current reading |
| PhScreen.Screens.Finish | components/lvgl_ui/ph_screen.c:766-777 | INVALID_STATE before step 3; otherwise the calibration is marked valid and saved |
| PhScreen.Screens.Cancel | components/lvgl_ui/ph_screen.c:779-784 | the step returns to 0 |
| PhScreen.Screens.ShowDetail | components/lvgl_ui/ph_screen.c:636-658 | the detail screen is loaded |
| PhScreen.Screens.ShowSettings | components/lvgl_ui/ph_screen.c:660-683 | the settings screen is loaded |
| PhScreen.Screens.ShowCalibration | components/lvgl_ui/ph_screen.c:685-709 | the calibration screen is loaded at step 1 |
| PhScreen.Screens.Close | components/lvgl_ui/ph_screen.c:711-719 | the close callback runs once when one is set |
| PhScreen.Screens.SetCloseCallback | components/lvgl_ui/ph_screen.c:721-724 | the close callback is replaced |
| PhScreen.Screens.BackButton | components/lvgl_ui/ph_screen.c:201-212 | a click, press or ENTER runs the close callback when one is set |
| PhScreen.Screens.SettingsButton | components/lvgl_ui/ph_screen.c:214-225 | a click, press or ENTER loads the settings screen |
| PhScreen.Screens.CalibrationButton | components/lvgl_ui/ph_screen.c:227-238 | a click, press or ENTER loads the calibration screen at step 1 |
| PhScreen.Screens.SaveSettingsButton | components/lvgl_ui/ph_screen.c:240-253 | a click, press or ENTER saves and returns to the detail screen |
| PhScreen.Screens.NextButton | components/lvgl_ui/ph_screen.c:255-280 | a click, press or ENTER records the step's buffer and advances; past the third point the calibration is finished, saved and the detail screen shown |
| SensorHistory.Readings | components/lvgl_main/lvgl_main.c:422-433 | one reading per card, six in all |
| SensorHistory.SensorValue | components/lvgl_main/lvgl_main.c:422-433 | the card's reading for indices 0..5 in card order, 0 for any other index |
| SensorHistory.RoundHalfAway | components/lvgl_main/lvgl_main.c:440 | lroundf's result lies within a half of the value, and a whole value is kept |
| SensorHistory.History.Series | components/lvgl_main/lvgl_main.c:232-234 | at most the last 60 points of a sensor |
| SensorHistory.History.constructor | components/lvgl_main/lvgl_main.c:232-234 | every series empty |
| SensorHistory.History.Record | components/lvgl_main/lvgl_main.c:437-446 | the sensor's series gains the scaled reading, dropping its oldest point once 60 are held; every other series is unchanged |
| SensorHistory.History.RecordAll | components/lvgl_main/lvgl_main.c:918-946 | every card's series gains its own scaled reading |
| LvglMain.SensorOf | components/lvgl_main/lvgl_main.c:1496 | a detail or settings screen belongs to one sensor, whose detail or settings screen it is (with line 1513) |
| LvglMain.Turned | components/lvgl_main/lvgl_main.c:1466 | one step clockwise moves to the next entry and wraps from the last to the first; counter-clockwise the reverse (with line 1477) |
| LvglMain.TurnedIsModular | components/lvgl_main/lvgl_main.c:1466 | the step is the source's (i + 1) % n and (i - 1 + n) % n (with lines 1469, 1477, 1480) |
| LvglMain.TurnBackRestores | components/lvgl_main/lvgl_main.c:1466 | a turn one way and then the other selects the entry it started on (with line 1477) |
| LvglMain.BackTarget | components/lvgl_main/lvgl_main.c:1363-1398 | back leads nowhere from main, to main from a detail screen, and to the detail screen of a settings screen's sensor (with lines 1505-1517) |
| LvglMain.PressTarget | components/lvgl_main/lvgl_main.c:1485-1503 | a press leads from main to the selected card's detail and from a detail screen to its sensor's settings; elsewhere nowhere |
| LvglMain.BackUndoesPress | components/lvgl_main/lvgl_main.c:1485-1517 | going forward with a press and back with a long press returns to the screen one started from |
| LvglMain.DetailIndexAfter | components/lvgl_main/lvgl_main.c:1281-1288 | the detail index is cleared exactly when a detail screen gives way to a non-detail one |
| LvglMain.Dashboard.constructor | components/lvgl_main/lvgl_main.c:82-93 | the main screen, card 0, navigation on, no detail index, no focus, no screens created, empty histories (with lines 209-235) |
| LvglMain.Dashboard.ShowScreen | components/lvgl_main/lvgl_main.c:1276-1360 | the target becomes current and is the only screen shown when it exists; the detail index follows DetailIndexAfter |
| LvglMain.Dashboard.OpenDetail | components/lvgl_main/lvgl_main.c:1489-1493 | the detail screen of the sensor is created if needed and shown |
| LvglMain.Dashboard.OpenSettings | components/lvgl_main/lvgl_main.c:1497-1501 | the settings screen of the sensor is created if needed and shown |
| LvglMain.Dashboard.SensorCard | components/lvgl_main/lvgl_main.c:1096-1117 | a card click shows that sensor's detail screen |
| LvglMain.Dashboard.SettingsButton | components/lvgl_main/lvgl_main.c:1401-1416 | the settings button shows that sensor's settings screen |
| LvglMain.Dashboard.BackButton | components/lvgl_main/lvgl_main.c:1363-1398 | the current screen's back target is shown; from main nothing changes |
| LvglMain.Dashboard.HandleEncoder | components/lvgl_main/lvgl_main.c:1456-1526 | nothing with navigation off; turns move the card on main and the item on settings; a press follows PressTarget, a long press BackTarget, a release nothing |
| LvglMain.Dashboard.EncoderKey | components/lvgl_main/lvgl_main.c:892-913 | ENTER and ESC switch to the press and back targets when the target exists; a value change turns the card or item by its sign (with lines 1602-1714) |
| LvglMain.Dashboard.SetFocus | components/lvgl_main/lvgl_main.c:808-833 | only the six cards can take the focus; any other index changes nothing |
| LvglMain.Dashboard.TotalFocusItems | components/lvgl_main/lvgl_main.c:840-843 | six focus items |
| LvglMain.Dashboard.ClearFocus | components/lvgl_main/lvgl_main.c:845-851 | no focus |
| LvglMain.Dashboard.CreateMainUi | components/lvgl_main/lvgl_main.c:587-663 | the value labels exist from then on |
| LvglMain.Dashboard.UpdateSensorDisplay | components/lvgl_main/lvgl_main.c:918-967 | the snapshot is kept and, once the labels exist, every card's reading is recorded in its history |
| LvglUi.BackTarget | components/lvgl_ui/lvgl_ui.c:1780-1839 | back leads to main from the detail, status, network, mobile, OTA, export and about screens, to the sensor's detail from its settings, to the status screen from its sub-screens, and nowhere from main or calibration |
| LvglUi.BackDescends | components/lvgl_ui/lvgl_ui.c:1780-1839 | back always leads to a screen with a smaller code |
| LvglUi.BackReachesMain | components/lvgl_ui/lvgl_ui.c:1780-1839 | every screen with a back button is at most two presses from main |
| LvglUi.MenuScreenId | components/lvgl_ui/lvgl_ui.c:1890-1902 | the six menu items have screen ids and no other item has one |
| LvglUi.MenuIdsDistinct | components/lvgl_ui/lvgl_ui.c:1890-1897 | each menu item opens a screen of its own |
| LvglUi.DetailIdsDistinct | components/lvgl_ui/lvgl_ui.c:1491-1494 | each card opens a detail screen of its own |
| LvglUi.MenuIdsAreNotDetailIds | components/lvgl_ui/lvgl_ui.c:1491-1494 | no menu item opens a detail screen (with lines 1890-1897) |
| LvglUi.Clock | components/lvgl_ui/lvgl_ui.c:635-645 | the hours shown are below 24 and the minutes below 60 |
| LvglUi.ClockIsTimeOfDay | components/lvgl_ui/lvgl_ui.c:640-643 | the hours and minutes shown account for every whole minute of the uptime's day |
| LvglUi.Status | components/lvgl_ui/lvgl_ui.c:357-360 | a reading is critical exactly when it passes a defined danger threshold, a warning exactly when it passes only a defined warning threshold (with lines 676-716) |
| LvglUi.NormalIsInsideWarningBand | components/lvgl_ui/lvgl_ui.c:676-716 | a reading is normal exactly when it lies inside every defined warning threshold |
| LvglUi.LowCo2IsNormal | components/lvgl_ui/lvgl_ui.c:225-237 | the CO2 card has only upper thresholds, so a low reading is never flagged (with lines 676-716) |
| LvglUi.Ui.constructor | components/lvgl_ui/lvgl_ui.c:113-142 | the main screen, card 0, navigation on, no detail index, no focus but focus visible, nothing created or loaded, empty histories (with lines 258-304) |
| LvglUi.Ui.CreateMainUi | components/lvgl_ui/lvgl_ui.c:860-976 | the main screen and its cards exist |
| LvglUi.Ui.ShowScreen | components/lvgl_ui/lvgl_ui.c:1688-1777 | the target becomes current; only main and the legacy screens of sensors 1..5 are loaded, created on demand; the detail index follows the detail rule |
| LvglUi.Ui.BackButton | components/lvgl_ui/lvgl_ui.c:1780-1839 | the back target is shown; from a screen without one nothing changes |
| LvglUi.Ui.SettingsButton | components/lvgl_ui/lvgl_ui.c:1842-1857 | the sensor's settings screen is created if needed and becomes current |
| LvglUi.Ui.SensorCard | components/lvgl_ui/lvgl_ui.c:1486-1500 | a card below six asks the screen manager for its own detail screen; any other index asks nothing |
| LvglUi.Ui.SystemSettingsButton | components/lvgl_ui/lvgl_ui.c:1860-1868 | the system menu is requested |
| LvglUi.Ui.MenuItem | components/lvgl_ui/lvgl_ui.c:1871-1902 | a click or ENTER on one of the six items requests its screen; anything else requests nothing |
| LvglUi.Ui.SetFocus | components/lvgl_ui/lvgl_ui.c:1141-1181 | a card index moves both the focus and the selected card; any other index is refused |
| LvglUi.Ui.TotalFocusItems | components/lvgl_ui/lvgl_ui.c:1188-1191 | seven focus items: six cards and the settings button |
| LvglUi.Ui.ClearFocus | components/lvgl_ui/lvgl_ui.c:1193-1199 | no focus |
| LvglUi.Ui.HideFocus | components/lvgl_ui/lvgl_ui.c:1208-1213 | the focus is hidden (with lines 1239-1255) |
| LvglUi.Ui.HandleEncoder | components/lvgl_ui/lvgl_ui.c:1943-2022 | nothing with navigation off; otherwise the focus shows and the event goes to the screen manager's group, or else to the legacy selection |
| LvglUi.Ui.UpdateSensorDisplay | components/lvgl_ui/lvgl_ui.c:1315-1358 | the snapshot is kept and, once the cards exist, every badge shows its reading's status and every reading is recorded in its history |
| UiManager.SensorName | components/lvgl_ui/ui_manager.c:41-108 | each of the six sensors has its name, anything else "Unknown" (with lines 794-800) |
| UiManager.SensorUnit | components/lvgl_ui/ui_manager.c:41-108 | each of the six sensors has its unit, anything else the empty unit (with lines 802-808) |
| UiManager.NamesIdentifySensors | components/lvgl_ui/ui_manager.c:41-108 | the six names are different and none is "Unknown" (with lines 794-800) |
| UiManager.Default | components/lvgl_ui/ui_manager.c:41-108 | every sensor starts at 0 with its alarm on, its target strictly inside its range and its alarm window inside the range (with lines 245-261) |
| UiManager.Classify | components/lvgl_ui/ui_manager.c:709-717 | with the alarm on a card is critical exactly outside the alarm window and a warning exactly within 10% of either edge inside it; with the alarm off, normal |
| UiManager.NormalIsInnerWindow | components/lvgl_ui/ui_manager.c:709-717 | with non-negative thresholds a card is normal exactly inside the inner window |
| UiManager.PhTargetIsWarning | components/lvgl_ui/ui_manager.c:41-108 | the pH card shows its own default target as a warning (with lines 709-717) |
| UiManager.ChartPoint | components/lvgl_ui/ui_manager.c:749 | the chart point is the reading in hundredths, truncated toward zero |
| UiManager.FocusAfterAsWritten | components/lvgl_ui/ui_manager.c:778-784 | the step as written always lands on one of the six sensors |
| UiManager.LongBackStepMisses | components/lvgl_ui/ui_manager.c:782 | seven steps back from the first sensor land on the fourth, not the sixth |
| UiManager.FocusAfter | components/lvgl_ui/ui_manager.c:778-784 | the new focus is one of the six sensors, diff positions round from the old one |
| UiManager.ShortStepsAgree | components/lvgl_ui/ui_manager.c:778-784 | for steps of at most six positions the code as written and the corrected step agree |
| UiManager.FocusStepReturns | components/lvgl_ui/ui_manager.c:778-784 | stepping forward and back by the same amount returns to the same sensor |
| UiManager.Manager.constructor | components/lvgl_ui/ui_manager.c:11-16 | not initialised, focus on pH, no screen created or visible |
| UiManager.Manager.Init | components/lvgl_ui/ui_manager.c:121-163 | OK and initialised; the first call gives every sensor its default record and leaves only the main screen created and visible; a second call changes nothing |
| UiManager.Manager.Clear | components/lvgl_ui/ui_manager.c:151 | every screen slot cleared |
| UiManager.Manager.HideAll | components/lvgl_ui/ui_manager.c:582-590 | no screen is left visible |
| UiManager.Manager.UpdateDisplay | components/lvgl_ui/ui_manager.c:677-754 | the card's status updates while the main screen is visible, and a chart point is added while the sensor's detail screen is |
| UiManager.Manager.ShowScreen | components/lvgl_ui/ui_manager.c:570-629 | INVALID_STATE before init; main is then the only visible screen; a sensor out of range is INVALID_ARG with nothing visible; otherwise the sensor screen, created on first use, is the only one visible |
| UiManager.Manager.IsVisible | components/lvgl_ui/ui_manager.c:636-642 | visible only for a created screen inside the table |
| UiManager.Manager.UpdateSensorData | components/lvgl_ui/ui_manager.c:644-659 | INVALID_ARG before init or for a bad sensor; otherwise the record is stored and the display updated |
| UiManager.Manager.GetSensorData | components/lvgl_ui/ui_manager.c:661-675 | INVALID_ARG before init or for a bad sensor; otherwise the stored record |
| UiManager.Manager.SetFocus | components/lvgl_ui/ui_manager.c:756-764 | only a valid sensor after init takes the focus; anything else is INVALID_ARG |
| UiManager.Manager.HandleEncoder | components/lvgl_ui/ui_manager.c:771-792 | INVALID_STATE before init; on main ENTER opens the focused sensor's detail and a rotation moves the focus by the corrected `FocusAfter`, which agrees with the C expression on the ±1 steps main/app_main_optimized.c:267-270 passes; elsewhere ESC returns to main |
| UiManager.Manager.BackButton | components/lvgl_ui/ui_manager.c:549-553 | the main screen becomes the only visible one (with lines 631-634) |
| UiManager.Manager.OpenSensorScreen | components/lvgl_ui/ui_manager.c:555-567 | the sensor's detail or settings screen becomes the only visible one |

## Left out

**I/O and the outside world**
- File reading, command-line handling and console output of analyze_crash.py and analyze_esp32_state.py. The report text is a parameter. In place of the printed text, analyze_crash.py's summary is returned as a `CrashAnalyzer.Summary` record: the ROM and stack advice, PC, SP, the frame and task counts, and the first five frames and task names. analyze_esp32_state.py's results are the region string, the SP verdict and the exception and interrupt report values.
- analyze_esp32_state.py `find_function_at_pc`, `dump_stack`, `generate_commands` and `main`. They run addr2line in a subprocess or print fixed text, so they have no logic beyond the external tool.
- The Python character classes: `\d` and `\w` are ASCII only. The model also does no Unicode case folding.
- CrashAnalyzer.Sample: the source takes its sample from a Python `set`, whose order is unspecified. The model lists values in order of first appearance, which is one order the set can produce. The contract promises only the ten-value bound, distinctness and membership, not any order.
- FreeRTOS tasks, queues and mutexes everywhere. Each method is one atomic step, and the mutex-timeout paths (`ESP_ERR_TIMEOUT`) are not modelled.
- The encoder ISR, `encoder_get_event_queue`, and the polling loop's delays. One call to `Encoder.Encoder.Poll` is one pass of `encoder_button_task`.
- The relay task's delays and I²C device concurrency. I²C transfers are recorded writes, and their outcomes are parameters.
- NVS: open, commit and partial writes. NVS is an abstract stored snapshot whose read and write results are parameters. Cases covered this way: data logger save/load, hydro settings, notification restore, pH calibration.
- adaptive_pid NVS save/load (`adaptive_pid_save_to_nvs`, `_load_from_nvs`, `_save_all`, `_load_all`). They only copy the state blob.
- The system clock. `esp_timer_get_time`, `xTaskGetTickCount` and `time()` values are parameters.
- Every LVGL widget, style, label text, timer and animation. Screens are modelled only through the state the cited functions update.

**Floating point and numerics**
- Floating-point rounding: values are `real`, and NaN is a separate `Option` or flag where the source tests for it.
- SensorManager.Accept: a temperature/humidity attempt that is NaN is rejected, but `read_sht3x_with_retry` (sensor_manager.c:145-159) accepts any reading `sht3x_read` reports as successful, NaN included. The model's `real` has no NaN value to pass on.
- `printf`-style float formatting in the encoder widget, the popups and the cards. `EncoderValueEdit.DisplayOf` models only the integer/decimal choice and the `(int)` truncation.
- adaptive_pid `calculate_linear_regression`, `adaptive_pid_update_history`'s trend update, `adaptive_pid_predict` and `adaptive_pid_process`. These are least-squares regression and forecasting in floating point. Only the ring-slot order that the regression reads is modelled, in `AdaptivePid.RegressionSlot`.
- SensorHistory.Scaled: does not model `lv_coord_t`'s 16-bit truncation of a scaled reading (a CO2 or lux value over 32767).
- PumpManager.DurationMs: floors the quotient and then clamps it, and is unbounded in between. In C the `(uint32_t)` cast at pump_manager.c:179 comes before the clamp at lines 182-188, and `flow_rate` is only checked to be positive. A quotient outside the 32-bit range, such as 100 ml at 0.00001 ml/s, is undefined behaviour in C, so the clamp that follows cannot repair it. The model picks one outcome where the source has none.
- Counter wrap-around of the 32-bit statistics counters is not modelled: the counters are unbounded `nat`. Only the hourly-reset subtraction is wrapped in the model proper; the unsigned focus sum is wrapped only in `UiManager.FocusAfterAsWritten`, and `UiManager.Manager.HandleEncoder` uses the corrected `FocusAfter` (see Findings).

**Getters and other operations**
- Getters that only copy a modelled field are not written out:
  - `pump_pid_get_stats`;
  - `ai_is_model_loaded` and `ai_get_stats`;
  - `adaptive_pid_get_stats`;
  - `sensor_manager_get_cached_data`, `sensor_manager_get_stats` and `sensor_manager_get_last_update_time`;
  - `trema_relay_get_state_wdt`, `trema_relay_is_using_stub_values` and `trema_expander_is_using_stub_values`;
  - `widget_encoder_value_get` and `widget_encoder_value_is_editing`;
  - `ui_get_focus` and `ui_get_sensor_count`;
  - lvgl_main `get_focus_index` and `is_detail_screen_open`;
  - the ph_screen screen and group getters.
- `sensor_manager_set_auto_update_interval`: it stores nothing and returns `ESP_ERR_NOT_SUPPORTED` (sensor_manager.c:603-609), so there is no state to model.
- Seqs.TruncateTo: counts characters, whereas `strncpy` into a fixed buffer counts bytes. A message with multi-byte UTF-8 characters, as the Russian texts are, is cut later in the model than on the device, which can also cut inside a character. This affects every caller: `DataLogger.Logger.Log`, `NotificationSystem.Notifications.Create`, `ErrorHandler.NotificationText` (the 160-byte notification buffer) and the `EncoderValueEdit.Editor` unit text.
- SensorManager.Manager.ReadAll: keeps the previous cached value of a failed sensor. The C retry helpers write each attempt's driver output straight into `cached_data` (sensor_manager.c:286-317), so a rejected attempt's value stays there, marked not valid. What a driver writes on error belongs to the drivers, which are not part of this model.
- PhEcController.TruncMs: returns 0 for a negative quotient and is unbounded. In C the `(uint32_t)` cast of a float outside the 32-bit range is undefined (ph_ec_controller.c:174, 213, 230-234), so the model picks one outcome where the source has none.
- `notification_create`'s side effects after the entry is stored: the registered callback, the auto-log of warnings into the data logger and the autosave (notification_system.c:144-190) are not modelled.
- The `notification_create` calls of adaptive_pid `reset_learning`, `set_safe_mode` and `handle_failed_prediction` (adaptive_pid.c:643-645, 667-669, 746-748) are not modelled. The alarm and recovery notices of system_tasks (system_tasks.c:124, 141, 554, 576) are recorded as `SystemTasks.Notice` values, not passed to `NotificationSystem` or to `DataLogger`.
- sensor_manager `read_ec`, `read_temp_humidity`, `read_lux` and `read_air_quality`, and their retry helpers. Their status rule is the one modelled for `SensorManager.Manager.ReadSensor`; each driver's scaling belongs to the thin drivers, which are not part of this model.
- Callback execution in the task scheduler. A run is recorded as a call of the task's callback; what the callback does is outside the scheduler.
- `error_handler_set_font` and `popup_screen_register`. They pass a font or a screen configuration to LVGL and the screen manager.
- Screen and widget builders: the ph_screen `create_*` functions, the ui_manager `create_*` functions, lvgl_main `ensure_screen_initialized` and `lvgl_main_init`, and lvgl_ui's system sub-screens with their callbacks. They only build LVGL objects.
- Focus highlighting and selection styles: lvgl_main `update_card_selection` and `update_settings_selection`, and lvgl_ui `show_focus` and `reset_focus_timer`. The model changes the selected index, not the style.
- lvgl_main `update_status_badge` and its `threshold_defined`. The same badge rule is modelled once, from lvgl_ui, in `LvglUi.Status`.
- lvgl_main `lvgl_update_sensor_values`, `display_update_task` and `encoder_task`, and `status_timer_cb`'s label output. The history update inside them is `SensorHistory.History.RecordAll`, and the clock arithmetic is `LvglUi.Clock`.
- lvgl_main `open_detail_screen` and `close_detail_screen`. Their screen changes are modelled by `LvglMain.Dashboard.ShowScreen`.
- LvglMain.Dashboard.UpdateSensorDisplay: records all six histories or none, depending on `labelsCreated`. `update_sensor_display` (lvgl_main.c:927-931) skips each card on its own when that card's `value_labels[i]` is NULL; the model has one flag for all six labels.
- `update_detail_view` in lvgl_main and lvgl_ui, and the ui_manager theme and `lv_obj` lookups. They only set label and chart contents.
- The PCNT unit's count limits and glitch filter in encoder.c. The rotation count is a parameter of each poll.
- The I²C probe loop in trema_relay init. Its outcome, whether the model byte was read, is a parameter.
- pump_manager's and ph_ec_controller's call into the peristaltic pump driver, and its delays. They are recorded as pump runs.
- Two driver calls are neither recorded as actions nor modelled. The first is the five `pump_init` calls of `automation_controller_init` (automation_controller.c:179-191), which configure the pump pins. The second is `trema_ec_set_temperature` in `read_all_sensors` (system_tasks.c:637-641), which passes a valid temperature to the EC driver for compensation. The pump and EC drivers are not part of this model.
- `screen_lifecycle_add_interactive_iterative` and `is_interactive_element`. They walk the LVGL object tree. The de-duplication of `screen_add_to_encoder_group` is modelled on a sequence of widgets.

## Notes on the source

These are source behaviours the model keeps as written. Each is stated in a contract or a lemma.
- The two crash analysers name EXCCAUSE 1 differently (`Esp32State.CauseTablesDisagree`).
- analyze_esp32_state.py's upper-DRAM branch can never be taken, because its range lies inside the DRAM test before it (`Esp32State.AnalyzeSp`).
- `pump_pid_compute` measures dt in whole seconds, so a second compute in the same second passes dt 0 to the PID. The PID then rejects it (`PumpPidManager.SameSecondGivesZeroDt`).
- ph_ec_controller does not clamp the nutrient pump times to the pump's minimum. The split of a short EC correction can therefore give a pump a run shorter than its minimum (`PhEcController.NutrientTimeBelowMinimum`).
- In ui_manager the pH card classifies its own default target as a warning. 6.8 is above 0.9 times the default high alarm (`UiManager.PhTargetIsWarning`).
- In trema_expander `analog_write`, the stub-mode check comes before the call to `digital_write`. In stub mode the cache is therefore left unchanged (`TremaExpander.Expander.AnalogWrite`).
- `sensor_update_failure` (system_tasks.c:562-580) has no caller: `read_all_sensors` reports a failed pH, EC, lux or CO2 read only through `register_sensor_failure`. So a streak fault is never switched on by a read, and neither the streak WARNING nor the streak recovery notice can fire on that path (`SystemTasks.ReadsKeepStreakFaultOff`, and `SystemTasks.Tasks.ReadAllSensors` never raises a fault).
- encoder.c sends the RELEASE event without the NULL-queue check it uses for the other events. The model guards every send by the queue's existence.
- encoder.h declares an `encoder_event_t` that differs from the one encoder.c uses. The model follows encoder.c.
- pump_manager.c uses statistics fields (`total_doses`, `doses_in_last_hour`, `status`) that pump_manager.h does not declare. The model follows the .c file.
- Where the repository's documentation and the code disagree, the model follows the code. Two examples:
  - `generate_summary` gives the stack advice exactly when the backtrace is empty, and has no SP rule.
  - trema_relay also accepts model id 0x0E.

## Findings

| source | as written | input that shows it | evidently intended | confidence | as-written member | corrected member |
|---|---|---|---|---|---|---|
| components/notification_system/notification_system.c:31-58,111-120 | `notification_system_init` accepts a capacity of 0; the first `notification_create` then finds the list full, decrements the 32-bit count from 0 to 0xFFFFFFFF and writes the entry at that index | capacity 0, then any notification | a capacity of 0 is refused, as the data logger refuses it | not executed | NotificationSystem.CreateSlotAsWritten, NotificationSystem.ZeroCapacityCreateWritesOutOfBounds | NotificationSystem.Notifications.Init |
| components/lvgl_ui/screen_manager/screen_navigator.c:126-139 | when showing the new screen fails, `navigator_show` pops the history whether or not it pushed an entry | a failed show with no current screen, or with a full history | a failed show leaves the history as it was | not executed | ScreenNavigator.ShowFailureHistoryAsWritten, ScreenNavigator.ShowFailureLosesEntryWithoutCurrent, ScreenNavigator.ShowFailureLosesOldestWhenFull | ScreenNavigator.NavigatorShow |
| components/pump_manager/pump_manager.c:48-56 | `hour_ago = now - 3600` in `uint32_t` wraps during the first hour after boot, so the hourly counter is reset on every check | now = 100 s, last reset at 90 s | the counter resets only once an hour has passed, so the doses-per-hour limit holds from boot | not executed | PumpManager.ResetDueAsWritten, PumpManager.FirstHourAlwaysResets | PumpManager.HourlyReset |
| components/adaptive_pid/adaptive_pid.c:82-86,114-117 | once the ring has wrapped, the regression maps sample i to slot i below `history_index` and to `(history_index + i) % 50` from there on | history index 10: samples 0 and 40 both read slot 0 | sample i reads slot `(history_index + i) % 50`, the ring oldest first | not executed | AdaptivePid.RegressionSlotAsWritten, AdaptivePid.RegressionReadsSlotTwice | AdaptivePid.RegressionSlot |
| components/lvgl_ui/screens/popup_screen.c:299 | `popup_on_show` detects a repeated call by `type != 0`, but the notification type is 0 | a second `on_show` of a notification popup | any repeated `on_show` of a configured popup is ignored | not executed | PopupScreen.RepeatIgnoredAsWritten, PopupScreen.NotificationRepeatNotIgnored | PopupScreen.Popup.OnShow |
| components/xpt2046/xpt2046.c:317-328,278-279 | `xpt2046_calibrate` accepts equal minimum and maximum, and `read_touch` then divides by `max - min` | calibrate with x_min = x_max = 2000 | calibration bounds with min ≥ max are refused | not executed | Xpt2046.ScaleDivisorAsWritten, Xpt2046.EqualBoundsDivideByZero | Xpt2046.Touchscreen.Calibrate |
| components/lvgl_ui/ui_manager.c:782 | `(current_focus + diff + 6) % 6` is evaluated in unsigned arithmetic, so a step back of more than 6 wraps through 2^32 | focus 0, diff −7: 3 instead of 5 | the focus moves diff places round the six cards | not executed; assumes the enum is unsigned int | UiManager.FocusAfterAsWritten, UiManager.LongBackStepMisses | UiManager.FocusAfter |
| components/data_logger/data_logger.c:203-215 | `load_locked`, called by `data_logger_load_from_nvs`, caps the buffer at `g_max_entries` entries but reads the whole blob into it with `blob_size`; a blob shorter than one entry gives `malloc(0)` and still reads the blob | a stored blob of capacity + 1 entries, e.g. after a smaller capacity is configured | the read asks for no more than the capped buffer, and only whole entries are restored | not executed | DataLogger.LoadLengthsAsWritten, DataLogger.LoadReadOverrunsBuffer, DataLogger.LoadShortBlobGetsEmptyBuffer | DataLogger.Logger.Load |
